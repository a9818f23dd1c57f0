/** Timer expiry on a server: the loop that takes sockets off the front of a ring
    while they are due, although handlers put sockets back on the rings. */
module Expiry {
  import opened Rings
  import opened Tcp
  import opened Invariants
  import opened Sites
  import opened Endpoint
  import opened TimerRing
  import opened Options

  /** The handler that belongs to ring `r`, after the socket was taken off it. */
  function Handler(cfg: Config, now: nat, r: Ring, st: St): St {
    if r == Retransmit then RetransmitExpiry(cfg, now, st) else TimeoutExpiry(st)
  }

  function HandleAll(cfg: Config, now: nat, r: Ring, v: Site, ids: seq<nat>): Site
    decreases |ids|
  {
    if ids == [] || ids[0] >= |v.socks| then v
    else HandleAll(cfg, now, r, Put(v, ids[0], Handler(cfg, now, r, At(v, ids[0]))), ids[1..])
  }

  predicate Expired(v: Site, timeout: nat, now: nat, x: nat) {
    x < |v.socks| && v.socks[x].timer + timeout <= now
  }

  /** The longest expired prefix of a ring. */
  function Due(v: Site, timeout: nat, now: nat, ring: seq<nat>): (d: seq<nat>)
    ensures d <= ring && forall x :: x in d ==> Expired(v, timeout, now, x)
    ensures |d| < |ring| ==> !Expired(v, timeout, now, ring[|d|])
  {
    if ring == [] || !Expired(v, timeout, now, ring[0]) then []
    else [ring[0]] + Due(v, timeout, now, ring[1..])
  }

  ghost predicate Ordered(socks: seq<Sock>, ring: seq<nat>) {
    forall i, j :: 0 <= i < j < |ring| && ring[i] < |socks| && ring[j] < |socks| ==>
      socks[ring[i]].timer <= socks[ring[j]].timer
  }

  ghost predicate Sorted(v: Site) { Ordered(v.socks, v.rings.rt) && Ordered(v.socks, v.rings.to) }

  /** No socket carries a time after `now`. */
  ghost predicate NotAfter(v: Site, now: nat) {
    forall i :: 0 <= i < |v.socks| && v.socks[i].ring in {Retransmit, Timeout} ==> v.socks[i].timer <= now
  }

  // ---------------------------------------------------------------- one handler

  lemma OrderedTail(socks: seq<Sock>, ring: seq<nat>)
    requires Ordered(socks, ring) && ring != []
    ensures Ordered(socks, ring[1..])
  {
    var t := ring[1..];
    forall i, j | 0 <= i < j < |t| && t[i] < |socks| && t[j] < |socks| ensures socks[t[i]].timer <= socks[t[j]].timer {
      assert t[i] == ring[i + 1] && t[j] == ring[j + 1];
    }
  }

  lemma OrderedHead(socks: seq<Sock>, ring: seq<nat>, x: nat)
    requires Ordered(socks, ring) && ring != [] && x in ring[1..] && x < |socks| && ring[0] < |socks|
    ensures socks[ring[0]].timer <= socks[x].timer
  {
    var k :| 0 <= k < |ring[1..]| && ring[1..][k] == x;
    assert ring[k + 1] == x;
  }

  lemma OrderedCons(socks: seq<Sock>, x: nat, w: seq<nat>)
    requires Ordered(socks, w) && forall y :: y in w && y < |socks| && x < |socks| ==> socks[x].timer <= socks[y].timer
    ensures Ordered(socks, [x] + w)
  {
    var r := [x] + w;
    forall i, j | 0 <= i < j < |r| && r[i] < |socks| && r[j] < |socks| ensures socks[r[i]].timer <= socks[r[j]].timer {
      assert r[j] == w[j - 1] && r[j] in w;
      if i > 0 { assert r[i] == w[i - 1]; }
    }
  }

  lemma {:induction false} OrderedWithout(socks: seq<Sock>, ring: seq<nat>, id: nat)
    requires Ordered(socks, ring)
    ensures Ordered(socks, Without(ring, id))
  {
    if ring != [] {
      OrderedTail(socks, ring);
      OrderedWithout(socks, ring[1..], id);
      var w := Without(ring[1..], id);
      forall y | y in w && y < |socks| && ring[0] < |socks| ensures socks[ring[0]].timer <= socks[y].timer {
        OrderedHead(socks, ring, y);
      }
      OrderedCons(socks, ring[0], w);
    }
  }

  /** Moving a socket stamped `now` to the tail keeps a ring ordered. */
  lemma OrderedAfter(socks: seq<Sock>, ring: seq<nat>, i: nat, k: Sock, now: nat, back: bool)
    requires Ordered(socks, ring) && i < |socks| && (back ==> k.timer == now)
    requires forall x :: x in ring && x != i && x < |socks| ==> socks[x].timer <= now
    ensures Ordered(socks[i := k], Without(ring, i) + if back then [i] else [])
  {
    OrderedWithout(socks, ring, i);
    var w, s := Without(ring, i), socks[i := k];
    var t := w + if back then [i] else [];
    forall a, b | 0 <= a < b < |t| && t[a] < |s| && t[b] < |s| ensures s[t[a]].timer <= s[t[b]].timer {
      assert t[a] == w[a] && w[a] in w;
      if b < |w| {
        assert t[b] == w[b] && w[b] in w;
        assert socks[w[a]].timer <= socks[w[b]].timer;
      }
    }
  }

  /** Where each ring of the result comes from. */
  lemma RingsAfter(rs: Rings, id: nat, r: Ring)
    ensures Place(rs, id, r).rt == Without(rs.rt, id) + if r == Retransmit then [id] else []
    ensures Place(rs, id, r).ka == Without(rs.ka, id) + if r == Keepalive then [id] else []
    ensures Place(rs, id, r).to == Without(rs.to, id) + if r == Timeout then [id] else []
  {
  }

  lemma OnRingTimes(cfg: Config, v: Site, now: nat)
    requires Fit(cfg, false, v) && NotAfter(v, now)
    ensures forall x :: x in v.rings.rt || x in v.rings.to ==>
        x < |v.socks| && v.socks[x].ring != NoRing && v.socks[x].timer <= now
  {
    forall x | x in v.rings.rt || x in v.rings.to
        ensures x < |v.socks| && v.socks[x].ring != NoRing && v.socks[x].timer <= now {
      assert v.rings.Holder(x) in {Retransmit, Timeout, Keepalive};
    }
  }

  lemma SameTimes(socks: seq<Sock>, ring: seq<nat>, i: nat, k: Sock)
    requires Ordered(socks, ring) && i < |socks| && (i in ring ==> k.timer == socks[i].timer)
    ensures Ordered(socks[i := k], ring)
  {
  }

  /** Every handler of a server keeps both rings sorted as long as the clock does not run back. */
  lemma HandlerKeepsSorted(cfg: Config, now: nat, v: Site, i: nat, r: St)
    requires Fit(cfg, false, v) && i < |v.socks| && Keeps(cfg, false, now, At(v, i), r) && cfg.server
    requires Sorted(v) && NotAfter(v, now)
    ensures Sorted(Put(v, i, r)) && NotAfter(Put(v, i, r), now)
  {
    hide Place, Ordered, Without;
    var st := At(v, i);
    OnRingTimes(cfg, v, now);
    assert RingStep(cfg, now, st, r);
    if r.rings == Place(st.rings, st.sk.id, r.sk.ring) && (r.sk.ring in {Retransmit, Timeout} ==> r.sk.timer == now) {
      RingsAfter(v.rings, i, r.sk.ring);
      OrderedAfter(v.socks, v.rings.rt, i, r.sk, now, r.sk.ring == Retransmit);
      OrderedAfter(v.socks, v.rings.to, i, r.sk, now, r.sk.ring == Timeout);
    } else {
      SameTimes(v.socks, v.rings.rt, i, r.sk);
      SameTimes(v.socks, v.rings.to, i, r.sk);
    }
  }

  // ---------------------------------------------------------------- the loop

  function RunTimer(cfg: Config, now: nat, r: Ring, timeout: nat, v: Site): Site {
    HandleAll(cfg, now, r, v, Due(v, timeout, now, v.rings.Of(r)))
  }

  lemma HandlerKeeps(cfg: Config, now: nat, r: Ring, st: St)
    requires Sound(cfg, false, st.sk) && r in {Retransmit, Timeout} && st.sk.ring == r
    ensures Keeps(cfg, false, now, st, Handler(cfg, now, r, st))
  {
    hide RetransmitExpiry, TimeoutExpiry, Follows;
    if r == Retransmit { RetransmitExpiryKeeps(cfg, false, now, st); } else { TimeoutExpiryKeeps(cfg, false, now, st); }
  }

  /** A socket that was taken off ring `r` comes back only at the tail, stamped with the clock. */
  lemma HandlerRing(cfg: Config, now: nat, r: Ring, st: St)
    requires cfg.server && Sound(cfg, false, st.sk) && r in {Retransmit, Timeout} && st.sk.ring == r
    ensures var k := Handler(cfg, now, r, st);
            && k.rings == Place(st.rings, st.sk.id, k.sk.ring)
            && (k.sk.ring == r ==> k.sk.timer == now)
  {
    hide DoRetransmit, Close, Place;
    var st1 := Move(st, NoRing);
    if r == Retransmit {
      DoRetransmitKeeps(cfg, false, now, st1);
      PlaceAgain(st.rings, st.sk.id, NoRing, DoRetransmit(cfg, now, st1).sk.ring);
    } else {
      var st2 := st1.(stats := CountError(st1.stats));
      CloseKeeps(cfg, now, st2);
      PlaceAgain(st.rings, st.sk.id, NoRing, Close(st2).sk.ring);
    }
  }

  /** `v` after the first `k` of the due sockets `d` of ring `r` of `v0`: the rest
      of the ring is in place and unchanged, and what came back is stamped. */
  ghost predicate Mid(cfg: Config, now: nat, r: Ring, v0: Site, d: seq<nat>, v: Site, k: nat) {
    var ring0, ring := v0.rings.Of(r), v.rings.Of(r);
    && Fit(cfg, false, v) && |v.socks| == |v0.socks| && d <= ring0 && k <= |d| && NoDup(ring0)
    && (forall j :: 0 <= j < |d| ==> d[j] < |v.socks|)
    && (forall i :: 0 <= i < |v.socks| && i !in d[..k] ==> v.socks[i] == v0.socks[i])
    && |ring| >= |ring0| - k
    && (forall j :: 0 <= j < |ring0| - k ==> ring[j] == ring0[k + j])
    && (forall j :: |ring0| - k <= j < |ring| ==> ring[j] < |v.socks| && v.socks[ring[j]].timer == now)
  }

  lemma MidStart(cfg: Config, now: nat, r: Ring, timeout: nat, v: Site)
    requires Fit(cfg, false, v) && r in {Retransmit, Timeout}
    ensures Mid(cfg, now, r, v, Due(v, timeout, now, v.rings.Of(r)), v, 0)
  {
    var d := Due(v, timeout, now, v.rings.Of(r));
    forall j | 0 <= j < |d| ensures d[j] < |v.socks| { assert d[j] in d; }
  }

  lemma {:induction false} WithoutFirst(s: seq<nat>)
    requires NoDup(s) && s != []
    ensures Without(s, s[0]) == s[1..]
  {
    TailNoDup(s);
  }

  /** While the loop runs the front of the ring is the next due socket, and it stops exactly after the last. */
  lemma MidFront(cfg: Config, now: nat, r: Ring, timeout: nat, v0: Site, v: Site, k: nat)
    requires r in {Retransmit, Timeout} && timeout > 0 && Fit(cfg, false, v0)
    requires Mid(cfg, now, r, v0, Due(v0, timeout, now, v0.rings.Of(r)), v, k)
    ensures var d, ring := Due(v0, timeout, now, v0.rings.Of(r)), v.rings.Of(r);
            && (k < |d| ==> ring != [] && ring[0] == d[k] && Expired(v, timeout, now, ring[0])
                            && v.socks[ring[0]].ring == r && v.socks[ring[0]] == v0.socks[d[k]])
            && (k == |d| && ring != [] ==> ring[0] < |v.socks| && !Expired(v, timeout, now, ring[0]))
  {
    var d, ring, ring0 := Due(v0, timeout, now, v0.rings.Of(r)), v.rings.Of(r), v0.rings.Of(r);
    if k < |ring0| {
      assert ring[0] == ring0[k] && ring0[k] !in d[..k];
      assert ring[0] in ring && v.rings.Holder(ring[0]) == r && ring[0] < |v.socks|;
      assert v.socks[ring[0]] == v0.socks[ring0[k]];
      if k < |d| { assert d[k] in d && d[k] == ring0[k]; }
    }
  }

  lemma MidStep(cfg: Config, now: nat, r: Ring, timeout: nat, v0: Site, v: Site, k: nat, d: seq<nat>)
    requires r in {Retransmit, Timeout} && timeout > 0 && Fit(cfg, false, v0) && cfg.server
    requires d == Due(v0, timeout, now, v0.rings.Of(r)) && k < |d| && Mid(cfg, now, r, v0, d, v, k)
    ensures d[k] < |v.socks| && Mid(cfg, now, r, v0, d, Put(v, d[k], Handler(cfg, now, r, At(v, d[k]))), k + 1)
  {
    hide Handler, Follows, Place, Due;
    MidFront(cfg, now, r, timeout, v0, v, k);
    var x := d[k];
    var st := At(v, x);
    var k' := Handler(cfg, now, r, st);
    HandlerKeeps(cfg, now, r, st);
    HandlerRing(cfg, now, r, st);
    PutFits(cfg, false, now, v, x, k');
    RingsAfter(v.rings, x, k'.sk.ring);
    assert NoDup(v.rings.Of(r)) && v.rings.Of(r)[0] == x;
    WithoutFirst(v.rings.Of(r));
    assert k'.rings.Of(r) == v.rings.Of(r)[1..] + if k'.sk.ring == r then [x] else [];
    MidShift(cfg, now, r, v0, d, v, k, x, k');
  }

  /** One socket handled, given where the ring went. */
  lemma MidShift(cfg: Config, now: nat, r: Ring, v0: Site, d: seq<nat>, v: Site, k: nat, x: nat, st: St)
    requires Mid(cfg, now, r, v0, d, v, k) && k < |d| && x == d[k] && Fit(cfg, false, Put(v, x, st))
    requires var ring := v.rings.Of(r);
             && NoDup(ring) && ring != [] && ring[0] == x
             && st.rings.Of(r) == ring[1..] + if st.sk.ring == r then [x] else []
    requires st.sk.ring == r ==> st.sk.timer == now
    ensures Mid(cfg, now, r, v0, d, Put(v, x, st), k + 1)
  {
    hide Fit;
    var v' := Put(v, x, st);
    var ring, ring0, ring' := v.rings.Of(r), v0.rings.Of(r), st.rings.Of(r);
    assert d[..k + 1] == d[..k] + [x];
    forall j | 0 <= j < |ring0| - (k + 1) ensures ring'[j] == ring0[k + 1 + j] {
      assert ring'[j] == ring[j + 1];
    }
    forall j | |ring0| - (k + 1) <= j < |ring'| ensures ring'[j] < |v'.socks| && v'.socks[ring'[j]].timer == now {
      if j < |ring| - 1 { assert ring'[j] == ring[j + 1] && ring[j + 1] != ring[0]; }
    }
  }

  /** The result of handling all due sockets, seen at the end of the loop. */
  lemma {:induction false} MidEnd(cfg: Config, now: nat, r: Ring, timeout: nat, v0: Site, v: Site, k: nat)
    requires r in {Retransmit, Timeout} && timeout > 0 && Fit(cfg, false, v0) && cfg.server
    requires var d := Due(v0, timeout, now, v0.rings.Of(r)); Mid(cfg, now, r, v0, d, v, k)
    ensures var d := Due(v0, timeout, now, v0.rings.Of(r));
            Mid(cfg, now, r, v0, d, HandleAll(cfg, now, r, v, d[k..]), |d|)
    decreases |Due(v0, timeout, now, v0.rings.Of(r))| - k
  {
    hide Handler, Mid, Due;
    var d := Due(v0, timeout, now, v0.rings.Of(r));
    MidBounds(cfg, now, r, timeout, v0, v, k);
    if k < |d| {
      MidStep(cfg, now, r, timeout, v0, v, k, d);
      var v' := Put(v, d[k], Handler(cfg, now, r, At(v, d[k])));
      assert d[k..][0] == d[k] && d[k..][1..] == d[k + 1..];
      MidEnd(cfg, now, r, timeout, v0, v', k + 1);
    } else {
      assert d[k..] == [];
    }
  }

  lemma MidBounds(cfg: Config, now: nat, r: Ring, timeout: nat, v0: Site, v: Site, k: nat)
    requires r in {Retransmit, Timeout} && Fit(cfg, false, v0)
    requires Mid(cfg, now, r, v0, Due(v0, timeout, now, v0.rings.Of(r)), v, k)
    ensures var d := Due(v0, timeout, now, v0.rings.Of(r));
            k <= |d| && |v.socks| == |v0.socks| && (k < |d| ==> d[k] < |v.socks|) && Fit(cfg, false, v)
  {
  }

  /** On an ordered ring nothing behind the first unexpired socket is expired. */
  lemma OrderedDue(v: Site, timeout: nat, now: nat, ring: seq<nat>)
    requires NoDup(ring) && Ordered(v.socks, ring) && forall x :: x in ring ==> x < |v.socks|
    ensures var d := Due(v, timeout, now, ring);
            && NoDup(d)
            && (forall j :: |d| <= j < |ring| ==>
                ring[j] < |v.socks| && !Expired(v, timeout, now, ring[j]) && ring[j] !in d)
            && (forall x :: x in d <==> x in ring && Expired(v, timeout, now, x))
  {
    var d := Due(v, timeout, now, ring);
    hide Due;
    forall j | |d| <= j < |ring| ensures ring[j] < |v.socks| && !Expired(v, timeout, now, ring[j]) && ring[j] !in d {
      assert ring[j] in ring && ring[|d|] in ring;
      assert v.socks[ring[|d|]].timer <= v.socks[ring[j]].timer;
    }
  }

  lemma SortedDue(cfg: Config, now: nat, r: Ring, timeout: nat, v: Site)
    requires r in {Retransmit, Timeout} && Fit(cfg, false, v) && Sorted(v) && NotAfter(v, now)
    ensures var d, ring := Due(v, timeout, now, v.rings.Of(r)), v.rings.Of(r);
            && NoDup(d)
            && (forall j :: |d| <= j < |ring| ==>
                ring[j] < |v.socks| && !Expired(v, timeout, now, ring[j]) && ring[j] !in d)
            && (forall x :: x in d <==> x in v.rings.Of(r) && Expired(v, timeout, now, x))
  {
    OnRingTimes(cfg, v, now);
    assert NoDup(v.rings.Of(r));
    hide Due, Fit, NotAfter, NoDup, Ordered;
    OrderedDue(v, timeout, now, v.rings.Of(r));
  }

  lemma RunIsMid(cfg: Config, now: nat, r: Ring, timeout: nat, v: Site)
    requires r in {Retransmit, Timeout} && timeout > 0 && cfg.server && Fit(cfg, false, v)
    ensures var d := Due(v, timeout, now, v.rings.Of(r)); Mid(cfg, now, r, v, d, RunTimer(cfg, now, r, timeout, v), |d|)
  {
    hide Mid, Due, HandleAll;
    var d := Due(v, timeout, now, v.rings.Of(r));
    MidStart(cfg, now, r, timeout, v);
    MidEnd(cfg, now, r, timeout, v, v, 0);
    assert d[0..] == d;
  }

  lemma MidLeavesNone(cfg: Config, now: nat, r: Ring, timeout: nat, v: Site, v': Site, d: seq<nat>)
    requires timeout > 0 && Mid(cfg, now, r, v, d, v', |d|)
    requires forall j :: |d| <= j < |v.rings.Of(r)| ==>
               var x := v.rings.Of(r)[j]; x < |v.socks| && !Expired(v, timeout, now, x) && x !in d
    ensures forall x :: x in v'.rings.Of(r) ==> !Expired(v', timeout, now, x)
    ensures forall i :: 0 <= i < |v.socks| && i !in d ==> v'.socks[i] == v.socks[i]
  {
    hide Fit;
    var ring, ring' := v.rings.Of(r), v'.rings.Of(r);
    assert d[..|d|] == d;
    forall x | x in ring' ensures !Expired(v', timeout, now, x) {
      var j :| 0 <= j < |ring'| && ring'[j] == x;
      if j < |ring| - |d| { assert x == ring[|d| + j]; }
    }
  }

  /** On sorted rings the loop handles exactly the expired sockets, each once, and leaves none behind. */
  lemma ExpiryExact(cfg: Config, now: nat, r: Ring, timeout: nat, v: Site)
    requires r in {Retransmit, Timeout} && timeout > 0 && cfg.server
    requires Fit(cfg, false, v) && Sorted(v) && NotAfter(v, now)
    ensures var d, v' := Due(v, timeout, now, v.rings.Of(r)), RunTimer(cfg, now, r, timeout, v);
            && NoDup(d)
            && (forall x :: x in d <==> x in v.rings.Of(r) && Expired(v, timeout, now, x))
            && (forall x :: x in v'.rings.Of(r) ==> !Expired(v', timeout, now, x))
            && |v'.socks| == |v.socks|
            && (forall i :: 0 <= i < |v.socks| && i !in d ==> v'.socks[i] == v.socks[i])
  {
    var v' := RunTimer(cfg, now, r, timeout, v);
    RunIsMid(cfg, now, r, timeout, v);
    MidBounds(cfg, now, r, timeout, v, v', |Due(v, timeout, now, v.rings.Of(r))|);
    hide Mid, Fit, Sorted, NotAfter, RunTimer, Due;
    SortedDue(cfg, now, r, timeout, v);
    MidLeavesNone(cfg, now, r, timeout, v, v', Due(v, timeout, now, v.rings.Of(r)));
  }

  /** The loop keeps the site fit and both rings sorted. */
  lemma {:induction false} HandleAllKeeps(cfg: Config, now: nat, r: Ring, v: Site, ids: seq<nat>)
    requires r in {Retransmit, Timeout} && cfg.server && Fit(cfg, false, v) && Sorted(v) && NotAfter(v, now)
    requires NoDup(ids) && forall x :: x in ids ==> x < |v.socks| && v.socks[x].ring == r
    ensures var v' := HandleAll(cfg, now, r, v, ids);
            Fit(cfg, false, v') && Sorted(v') && NotAfter(v', now) && |v'.socks| == |v.socks|
    decreases |ids|
  {
    if ids != [] {
      hide Handler, Follows, Sorted, NotAfter;
      var x := ids[0];
      assert x in ids;
      TailNoDup(ids);
      HandlerKeeps(cfg, now, r, At(v, x));
      PutFits(cfg, false, now, v, x, Handler(cfg, now, r, At(v, x)));
      HandlerKeepsSorted(cfg, now, v, x, Handler(cfg, now, r, At(v, x)));
      assert forall y :: y in ids[1..] ==> y in ids && y != x;
      HandleAllKeeps(cfg, now, r, Put(v, x, Handler(cfg, now, r, At(v, x))), ids[1..]);
    }
  }

  lemma RunTimerKeeps(cfg: Config, now: nat, r: Ring, timeout: nat, v: Site)
    requires r in {Retransmit, Timeout} && cfg.server && Fit(cfg, false, v) && Sorted(v) && NotAfter(v, now)
    ensures var v' := RunTimer(cfg, now, r, timeout, v);
            Fit(cfg, false, v') && Sorted(v') && NotAfter(v', now) && |v'.socks| == |v.socks|
  {
    hide Sorted, HandleAll;
    var d := Due(v, timeout, now, v.rings.Of(r));
    forall x | x in d ensures x < |v.socks| && v.socks[x].ring == r {
      assert x in v.rings.Of(r) && v.rings.Holder(x) == r;
    }
    assert NoDup(v.rings.Of(r));
    HandleAllKeeps(cfg, now, r, v, d);
  }

  // ---------------------------------------------------------------- a server over time

  datatype Event = Arrives(i: nat, g: Segment) | RetransmitLoop | TimeoutLoop

  /** tcp_server_socket_timer_process and socket_timeout_timer_expire. */
  function RetransmitAfter(cfg: Config): nat { cfg.rto + cfg.rto / 10 }
  function TimeoutAfter(cfg: Config): nat { cfg.rto * RETRANSMIT_NUM_MAX + cfg.interval }

  function ServerStep(cfg: Config, v: Site, now: nat, e: Event): Site {
    match e
    case Arrives(i, g) => if i < |v.socks| then Put(v, i, Tcp.Server(cfg, now, At(v, i), g)) else v
    case RetransmitLoop => RunTimer(cfg, now, Retransmit, RetransmitAfter(cfg), v)
    case TimeoutLoop => RunTimer(cfg, now, Timeout, TimeoutAfter(cfg), v)
  }

  function ServerRun(cfg: Config, v: Site, es: seq<(nat, Event)>): Site
    decreases |es|
  {
    if es == [] then v else ServerRun(cfg, ServerStep(cfg, v, es[0].0, es[0].1), es[1..])
  }

  /** Clock readings that never run back, all of them between `from` and `until`. */
  ghost predicate Forward(es: seq<(nat, Event)>, from: nat, until: nat) {
    if es == [] then from <= until else from <= es[0].0 && Forward(es[1..], es[0].0, until)
  }

  lemma ServerStepKeeps(cfg: Config, v: Site, now: nat, e: Event)
    requires cfg.server && Fit(cfg, false, v) && Sorted(v) && NotAfter(v, now)
    ensures var v' := ServerStep(cfg, v, now, e); Fit(cfg, false, v') && Sorted(v') && NotAfter(v', now)
  {
    hide Tcp.Server, Sorted, NotAfter, RunTimer, Follows;
    match e {
      case Arrives(i, g) =>
        if i < |v.socks| {
          ServerKeeps(cfg, false, now, At(v, i), g);
          PutFits(cfg, false, now, v, i, Tcp.Server(cfg, now, At(v, i), g));
          HandlerKeepsSorted(cfg, now, v, i, Tcp.Server(cfg, now, At(v, i), g));
        }
      case RetransmitLoop => RunTimerKeeps(cfg, now, Retransmit, RetransmitAfter(cfg), v);
      case TimeoutLoop => RunTimerKeeps(cfg, now, Timeout, TimeoutAfter(cfg), v);
    }
  }

  lemma {:induction false} ServerRunKeeps(cfg: Config, v: Site, es: seq<(nat, Event)>, from: nat, until: nat)
    requires cfg.server && Fit(cfg, false, v) && Sorted(v) && NotAfter(v, from) && Forward(es, from, until)
    ensures var v' := ServerRun(cfg, v, es); Fit(cfg, false, v') && Sorted(v') && NotAfter(v', until)
    decreases |es|
  {
    if es != [] {
      ServerStepKeeps(cfg, v, es[0].0, es[0].1);
      ServerRunKeeps(cfg, ServerStep(cfg, v, es[0].0, es[0].1), es[1..], es[0].0, until);
    }
  }

  /** All sockets closed and off the rings. */
  ghost predicate Fresh(v: Site) {
    && v.rings == Rings([], [], [])
    && forall i :: 0 <= i < |v.socks| ==> v.socks[i].id == i && v.socks[i].state == Closed && v.socks[i].ring == NoRing
  }

  /** The loop on ring `r` handles exactly what has expired and leaves nothing behind. */
  ghost predicate Exact(cfg: Config, now: nat, r: Ring, timeout: nat, u: Site) {
    && (forall x :: x in Due(u, timeout, now, u.rings.Of(r)) <==> x in u.rings.Of(r) && Expired(u, timeout, now, x))
    && var v := RunTimer(cfg, now, r, timeout, u); forall x :: x in v.rings.Of(r) ==> !Expired(v, timeout, now, x)
  }

  /** After any run of a server with a clock that does not run back, both expiry
      loops are exact. */
  lemma ServerExpiryExact(cfg: Config, v: Site, es: seq<(nat, Event)>, now: nat)
    requires cfg.server && cfg.rto > 0 && Fresh(v) && Forward(es, 0, now)
    ensures Exact(cfg, now, Retransmit, RetransmitAfter(cfg), ServerRun(cfg, v, es))
    ensures Exact(cfg, now, Timeout, TimeoutAfter(cfg), ServerRun(cfg, v, es))
  {
    FreshFits(cfg, v);
    hide ServerRun, RunTimer, Due, Fit, Sorted, NotAfter, Fresh, Forward;
    ServerRunKeeps(cfg, v, es, 0, now);
    var u := ServerRun(cfg, v, es);
    hide Exact;
    SortedIsExact(cfg, now, Retransmit, RetransmitAfter(cfg), u);
    SortedIsExact(cfg, now, Timeout, TimeoutAfter(cfg), u);
  }

  lemma SortedIsExact(cfg: Config, now: nat, r: Ring, timeout: nat, u: Site)
    requires r in {Retransmit, Timeout} && timeout > 0 && cfg.server
    requires Fit(cfg, false, u) && Sorted(u) && NotAfter(u, now)
    ensures Exact(cfg, now, r, timeout, u)
  {
    ExpiryExact(cfg, now, r, timeout, u);
  }

  lemma FreshFits(cfg: Config, v: Site)
    requires Fresh(v)
    ensures Fit(cfg, false, v) && Sorted(v) && NotAfter(v, 0)
  {
  }

  // ---------------------------------------------------------------- in memory

  ghost predicate Holds(ws: WorkSpace, sks: seq<Socket>)
    reads ws, ws.timers, ws.timers.next, ws.timers.prev
  {
    ws.Valid() && ws.timers.num == |sks| && forall i :: 0 <= i < |sks| ==> sks[i].id == i
  }

  ghost function SiteOf(ws: WorkSpace, sks: seq<Socket>): (v: Site)
    reads ws, ws.timers, sks
    ensures |v.socks| == |sks|
  {
    Site(seq(|sks|, i requires 0 <= i < |sks| reads sks, ws, ws.timers => sks[i].Abs(ws).sk),
         ws.timers.rings, ws.stats, ws.sent, ws.pool)
  }

  /** socket_timer_run with the handler of ring `r`: as long as the first socket of
      the ring is due, take it off and handle it. */
  method RunTimerLoop(ws: WorkSpace, sks: seq<Socket>, r: Ring, timeout: nat)
    requires Holds(ws, sks) && ws.cfg.server && timeout > 0 && r in {Retransmit, Timeout}
    requires Fit(ws.cfg, false, SiteOf(ws, sks))
    modifies sks, ws`stats, ws`sent, ws`pool, ws.timers, ws.timers.next, ws.timers.prev
    ensures Holds(ws, sks) && SiteOf(ws, sks) == RunTimer(ws.cfg, ws.now, r, timeout, old(SiteOf(ws, sks)))
  {
    hide Due, HandleAll, Handler, Fit, Mid, SiteOf, Timers.Valid;
    SiteRings(ws, sks);
    ghost var v0 := SiteOf(ws, sks);
    ghost var d := Due(v0, timeout, ws.now, v0.rings.Of(r));
    ghost var k := 0;
    MidStart(ws.cfg, ws.now, r, timeout, v0);
    assert d[0..] == d;
    var now := ws.now;
    var sk := ws.timers.First(r);
    while sk != None
      invariant Holds(ws, sks) && ws.now == now == old(ws.now)
      invariant Mid(ws.cfg, now, r, v0, d, SiteOf(ws, sks), k) && k <= |d|
      invariant HandleAll(ws.cfg, now, r, SiteOf(ws, sks), d[k..]) == HandleAll(ws.cfg, now, r, v0, d)
      invariant if ws.timers.rings.Of(r) == [] then sk == None
                else sk == Some(ws.timers.rings.Of(r)[0]) && sk.id < |sks|
      decreases |d| - k
    {
      ghost var v := SiteOf(ws, sks);
      SiteRings(ws, sks);
      FrontHolder(ws.cfg, v, r);
      MidFront(ws.cfg, now, r, timeout, v0, v, k);
      MidBounds(ws.cfg, now, r, timeout, v0, v, k);
      if sks[sk.id].timer + timeout <= now {
        HandleFirst(ws.cfg, now, r, v, d[k..]);
        MidStep(ws.cfg, now, r, timeout, v0, v, k, d);
        HandleOne(ws, sks, r, sk.id);
        assert d[k..][0] == d[k] && d[k..][1..] == d[k + 1..];
        k := k + 1;
        MidBounds(ws.cfg, now, r, timeout, v0, SiteOf(ws, sks), k);
      } else {
        break;
      }
      sk := ws.timers.First(r);
    }
    SiteRings(ws, sks);
    MidFront(ws.cfg, now, r, timeout, v0, SiteOf(ws, sks), k);
    assert k == |d| && d[k..] == [];
    HandleNone(ws.cfg, now, r, SiteOf(ws, sks));
  }

  lemma FrontHolder(cfg: Config, v: Site, r: Ring)
    requires r in {Retransmit, Timeout}
    ensures Fit(cfg, false, v) && v.rings.Of(r) != [] ==> v.rings.Holder(v.rings.Of(r)[0]) == r
  {
  }

  lemma SiteRings(ws: WorkSpace, sks: seq<Socket>)
    ensures SiteOf(ws, sks).rings == ws.timers.rings
    ensures forall i :: 0 <= i < |sks| ==> SiteOf(ws, sks).socks[i].timer == sks[i].timer
  {
  }

  lemma HandleNone(cfg: Config, now: nat, r: Ring, v: Site)
    ensures HandleAll(cfg, now, r, v, []) == v
  {
  }

  lemma HandleFirst(cfg: Config, now: nat, r: Ring, v: Site, ids: seq<nat>)
    requires ids != [] && ids[0] < |v.socks|
    ensures HandleAll(cfg, now, r, v, ids) ==
        HandleAll(cfg, now, r, Put(v, ids[0], Handler(cfg, now, r, At(v, ids[0]))), ids[1..])
  {
  }

  method HandleOne(ws: WorkSpace, sks: seq<Socket>, r: Ring, i: nat)
    requires Holds(ws, sks) && i < |sks| && r in {Retransmit, Timeout} && Fit(ws.cfg, false, SiteOf(ws, sks))
    requires sks[i].Abs(ws).sk.ring == r
    modifies sks[i], ws`stats, ws`sent, ws`pool, ws.timers, ws.timers.next, ws.timers.prev
    ensures Holds(ws, sks)
    ensures SiteOf(ws, sks) == var v := old(SiteOf(ws, sks)); Put(v, i, Handler(ws.cfg, ws.now, r, At(v, i)))
  {
    hide Fit, Handler, Tcp.DoRetransmit, Tcp.Close, Place, Timers.Valid;
    ghost var st := sks[i].Abs(ws);
    OthersStay(ws.cfg, ws.now, r, SiteOf(ws, sks), i);
    HandlerIs(ws.cfg, ws.now, r, st);
    sks[i].NodeDel(ws);
    if r == Retransmit { sks[i].DoRetransmit(ws); } else { sks[i].TimedOut(ws); }
    assert sks[i].Abs(ws) == Handler(ws.cfg, ws.now, r, st);
  }

  lemma HandlerIs(cfg: Config, now: nat, r: Ring, st: St)
    ensures Handler(cfg, now, r, st)
         == if r == Retransmit then Tcp.DoRetransmit(cfg, now, Move(st, NoRing)) else TimeoutExpiry(st)
  {
  }

  /** The handler of one socket leaves the others on their rings. */
  lemma OthersStay(cfg: Config, now: nat, r: Ring, v: Site, i: nat)
    requires r in {Retransmit, Timeout} && Fit(cfg, false, v) && i < |v.socks| && v.socks[i].ring == r
    ensures forall x :: x != i ==> Handler(cfg, now, r, At(v, i)).rings.Holder(x) == v.rings.Holder(x)
  {
    HandlerKeeps(cfg, now, r, At(v, i));
    hide Handler;
    FollowsFits(cfg, now, At(v, i), Handler(cfg, now, r, At(v, i)));
  }
}
