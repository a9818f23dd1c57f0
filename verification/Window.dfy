/** The windowed sender of a server, on the code's wrapping sequence numbers as
    well as on unbounded ones: from an accepted request until the FIN. */
module Window {
  import opened Rings
  import opened Tcp
  import opened Invariants

  /** How far `a` is ahead of `b`. */
  function Dist(ar: Arith, a: int, b: int): int {
    if ar == Unbounded then a - b else (a - b) % TWO32
  }

  // ---------------------------------------------------------------- sequence arithmetic

  lemma DiffFrom(ar: Arith, a: int, b: int, base: int)
    requires 0 <= Dist(ar, a, base) < TWO31 && 0 <= Dist(ar, b, base) < TWO31
    ensures Diff(ar, a, b) == Dist(ar, a, base) - Dist(ar, b, base)
  {
    if ar == Wrap32 {
      var x, y := (a - base) / TWO32, (b - base) / TWO32;
      var d := Dist(ar, a, base) - Dist(ar, b, base);
      assert a - b == d + (x - y) * TWO32;
      ModShift(d, x - y);
    }
  }

  lemma ModShift(d: int, k: int)
    ensures (d + k * TWO32) % TWO32 == d % TWO32
  {
  }

  lemma AddDist(ar: Arith, a: int, n: nat, base: int)
    requires 0 <= Dist(ar, a, base) + n < TWO32
    ensures Dist(ar, Add(ar, a, n), base) == Dist(ar, a, base) + n
  {
    if ar == Wrap32 {
      var q, x := (a + n) / TWO32, (a - base) / TWO32;
      var d := Dist(ar, a, base) + n;
      assert Add(ar, a, n) - base == d + (x - q) * TWO32;
      ModShift(d, x - q);
    }
  }

  /** Distances seen from a point `b'` further on. */
  lemma Rebase(ar: Arith, a: int, b: int, b': int)
    requires 0 <= Dist(ar, b', b) <= Dist(ar, a, b) < TWO32
    ensures Dist(ar, a, b') == Dist(ar, a, b) - Dist(ar, b', b)
  {
    if ar == Wrap32 {
      var x, y := (a - b) / TWO32, (b' - b) / TWO32;
      var d := Dist(ar, a, b) - Dist(ar, b', b);
      assert a - b' == d + (x - y) * TWO32;
      ModShift(d, x - y);
    }
  }

  /** Any acknowledgement number that passes the two tests lies in what is outstanding. */
  lemma AckInFlight(ar: Arith, ack: int, una: int, nxt: int)
    requires 0 <= Dist(ar, nxt, una) < TWO31
    requires Diff(ar, ack, nxt) <= 0 && Diff(ar, ack, una) > 0
    ensures 0 < Dist(ar, ack, una) <= Dist(ar, nxt, una)
  {
    if ar == Wrap32 {
      var a, f := Dist(ar, ack, una), Dist(ar, nxt, una);
      assert 0 < a < TWO31;
      DiffFrom(ar, ack, nxt, una);
    }
  }

  // ---------------------------------------------------------------- multiples

  predicate Multiple(x: int, m: nat) { m > 0 && x % m == 0 }

  lemma ProductSize(q: int, m: nat)
    ensures q >= 1 ==> q * m >= m
    ensures q <= -1 ==> q * m + m <= 0
    ensures q == 0 ==> q * m == 0
  {
  }

  lemma ProductMultiple(q: int, m: nat)
    requires m > 0
    ensures (q * m) % m == 0
  {
    var r, d := (q * m) % m, (q * m) / m;
    assert (q - d) * m == r;
    ProductSize(q - d, m);
  }

  lemma MultipleStep(x: int, m: nat)
    requires Multiple(x, m)
    ensures Multiple(x - m, m) && (x > 0 ==> x >= m)
  {
    var q := x / m;
    assert x == q * m && x - m == (q - 1) * m;
    ProductMultiple(q - 1, m);
    ProductSize(q, m);
  }

  lemma MultipleSub(x: int, y: int, m: nat)
    requires Multiple(x, m) && Multiple(y, m)
    ensures Multiple(x - y, m)
  {
    assert x - y == (x / m - y / m) * m;
    ProductMultiple(x / m - y / m, m);
  }

  // ---------------------------------------------------------------- the invariant

  /** A worker in windowed mode: the window a whole number of packets, the response within a gigabyte, rounded up. */
  predicate Windowed(cfg: Config) {
    && cfg.server && !cfg.flood && cfg.dataLen > 0 && cfg.sendWindow > 0
    && cfg.sendWindow <= 0x10_0000 && cfg.dataLen <= 0x1_0000 && cfg.payload <= 0x4001_0000
  }

  predicate Numbers(cfg: Config, k: Sock) {
    Fits(cfg.arith, k.sndUna) && Fits(cfg.arith, k.sndNxt) && Fits(cfg.arith, k.sndMax)
  }

  /** A response, behind what an earlier one may still have in flight. */
  function Room(cfg: Config): nat { cfg.payload + cfg.sendWindow + cfg.dataLen }

  /** Bytes in flight `f` and bytes of the response not yet acknowledged `t`:
      whole packets still to send, and the flight under window plus one packet. */
  predicate WinAt(cfg: Config, f: int, t: int) {
    0 <= f <= t <= Room(cfg) && Multiple(t - f, cfg.dataLen) && f < cfg.sendWindow + cfg.dataLen
  }

  /** snd_una <= snd_nxt <= snd_max, and the congestion window within its bounds. */
  predicate Win(cfg: Config, k: Sock) {
    && Numbers(cfg, k)
    && WinAt(cfg, Dist(cfg.arith, k.sndNxt, k.sndUna), Dist(cfg.arith, k.sndMax, k.sndUna))
    && 1 <= k.sndWindow <= SEND_WINDOW_MAX
  }

  /** With whole packets acknowledged the flight does not pass the window itself. */
  lemma AlignedFlight(cfg: Config, f: int, t: int)
    requires WinAt(cfg, f, t) && Multiple(t, cfg.dataLen) && Multiple(cfg.sendWindow, cfg.dataLen)
    ensures f <= cfg.sendWindow
  {
    MultipleSub(t, t - f, cfg.dataLen);
    MultipleSub(f, cfg.sendWindow, cfg.dataLen);
    MultipleStep(f - cfg.sendWindow, cfg.dataLen);
  }

  // ---------------------------------------------------------------- sending

  /** A packet at the end of what is in flight, seen from `una`. */
  lemma SendNext(cfg: Config, now: nat, st: St, una: int, f: Flags)
    requires Windowed(cfg) && Numbers(cfg, st.sk) && Fits(cfg.arith, una) && f in {PUSH_ACK, PUSH_ACK_URG}
    requires st.sk.sndUna == st.sk.sndNxt && 0 <= Dist(cfg.arith, st.sk.sndNxt, una) <= Room(cfg)
    ensures var r := Reply(cfg, now, st, f);
            && r.sk.sndMax == st.sk.sndMax && r.sk.sndWindow == st.sk.sndWindow && Fits(cfg.arith, r.sk.sndNxt)
            && r.sk.state == st.sk.state && r.sk.sndUna == st.sk.sndUna && r.sk.keepalive == st.sk.keepalive
            && Dist(cfg.arith, r.sk.sndNxt, una) == Dist(cfg.arith, st.sk.sndNxt, una) +
                if Granted(st.pool) then cfg.dataLen else 0
  {
    if Granted(st.pool) { AddDist(cfg.arith, st.sk.sndNxt, cfg.dataLen, una); }
  }

  /** The burst sends whole packets inside window and response. */
  lemma {:induction false} BurstWindow(cfg: Config, now: nat, st: St, una: int, k: nat)
    requires Windowed(cfg) && Numbers(cfg, st.sk) && Fits(cfg.arith, una)
    requires WinAt(cfg, Dist(cfg.arith, st.sk.sndNxt, una), Dist(cfg.arith, st.sk.sndMax, una))
    ensures var r := Burst(cfg, now, st, Add(cfg.arith, una, cfg.sendWindow), st.sk.sndMax, k);
            && WinAt(cfg, Dist(cfg.arith, r.sk.sndNxt, una), Dist(cfg.arith, r.sk.sndMax, una))
            && Numbers(cfg, r.sk) && r.sk.sndMax == st.sk.sndMax && r.sk.sndWindow == st.sk.sndWindow
            && r.sk.state == st.sk.state && r.sk.keepalive == st.sk.keepalive
    decreases k
  {
    hide Reply;
    var limit, max := Add(cfg.arith, una, cfg.sendWindow), st.sk.sndMax;
    var f, t := Dist(cfg.arith, st.sk.sndNxt, una), Dist(cfg.arith, max, una);
    if k > 0 && Diff(cfg.arith, st.sk.sndNxt, limit) < 0 && Diff(cfg.arith, st.sk.sndNxt, max) < 0 {
      AddDist(cfg.arith, una, cfg.sendWindow, una);
      DiffFrom(cfg.arith, st.sk.sndNxt, limit, una);
      DiffFrom(cfg.arith, st.sk.sndNxt, max, una);
      MultipleStep(t - f, cfg.dataLen);
      var st1 := st.(sk := st.sk.(sndUna := st.sk.sndNxt));
      SendNext(cfg, now, st1, una, PUSH_ACK_URG);
      BurstWindow(cfg, now, Reply(cfg, now, st1, PUSH_ACK_URG), una, k - 1);
    }
  }

  /** What Reply leaves alone. */
  lemma ReplyLeaves(cfg: Config, now: nat, st: St, f: Flags)
    ensures var r := Reply(cfg, now, st, f);
            && r.sk.sndMax == st.sk.sndMax && r.sk.sndWindow == st.sk.sndWindow && r.sk.sndUna == st.sk.sndUna
            && r.sk.state == st.sk.state && r.sk.keepalive == st.sk.keepalive && r.sk.requests == st.sk.requests
            && (st.sk.sndNxt != st.sk.sndUna ==> r.sk.sndNxt == st.sk.sndNxt)
            && (Fits(cfg.arith, st.sk.sndNxt) ==> Fits(cfg.arith, r.sk.sndNxt))
  {
  }

  /** Only forward: `r` acknowledges bytes that were in flight in `k`. */
  predicate Ahead(cfg: Config, k: Sock, r: Sock) {
    r.sndMax == k.sndMax && 0 <= Dist(cfg.arith, r.sndUna, k.sndUna) <= Dist(cfg.arith, k.sndNxt, k.sndUna)
  }

  /** Bytes of the response not yet acknowledged. */
  function Left(cfg: Config, k: Sock): int { Dist(cfg.arith, k.sndMax, k.sndUna) }

  lemma AheadLeaves(cfg: Config, k: Sock, r: Sock)
    requires Win(cfg, k) && Windowed(cfg) && Ahead(cfg, k, r)
    ensures Left(cfg, r) == Left(cfg, k) - Dist(cfg.arith, r.sndUna, k.sndUna)
  {
    Rebase(cfg.arith, k.sndMax, k.sndUna, r.sndUna);
  }

  /** Between events: either the invariant, or the response is over. */
  predicate Runs(cfg: Config, k: Sock, r: Sock) {
    Ahead(cfg, k, r) && (r.state == Established ==> Win(cfg, r))
  }

  lemma ReplyMoreWindow(cfg: Config, now: nat, st: St)
    requires Windowed(cfg) && Win(cfg, st.sk) && st.sk.state == Established
    ensures var r := ReplyMore(cfg, now, st);
            && r.sk.sndUna == st.sk.sndUna && Runs(cfg, st.sk, r.sk)
            && (r.sk.state == Established || (r.sk.state == FinWait1 && st.sk.sndUna == st.sk.sndMax))
  {
    hide Reply, Burst, WinAt;
    var una := st.sk.sndUna;
    BurstWindow(cfg, now, st, una, st.sk.sndWindow);
    var b := Burst(cfg, now, st, Add(cfg.arith, una, cfg.sendWindow), st.sk.sndMax, st.sk.sndWindow);
    var st1 := b.(sk := b.sk.(sndUna := una));
    ReplyLeaves(cfg, now, st1.(sk := st1.sk.(state := FinWait1)), FIN_ACK);
    TimeoutLeaves(st1, now);
    FlightIsNat(cfg, st.sk);
  }

  lemma TimeoutLeaves(st: St, now: nat)
    ensures StartTimeout(st, now).sk == st.sk.(timer := now, ring := Timeout)
  {
  }

  lemma FlightIsNat(cfg: Config, k: Sock)
    requires Win(cfg, k)
    ensures 0 <= Dist(cfg.arith, k.sndNxt, k.sndUna) && Dist(cfg.arith, k.sndUna, k.sndUna) == 0
  {
  }

  lemma ResendFirstWindow(cfg: Config, now: nat, st: St)
    ensures var r := ResendFirst(cfg, now, st);
            && r.sk.sndMax == st.sk.sndMax && r.sk.sndWindow == 1 && r.sk.sndUna == st.sk.sndUna
            && r.sk.sndNxt == st.sk.sndNxt
            && r.sk.state == st.sk.state
  {
    hide Reply;
    ReplyLeaves(cfg, now, st.(sk := st.sk.(sndNxt := st.sk.sndUna)), PUSH_ACK);
  }

  /** snd_una moved to `ack` inside the flight. */
  lemma MovedUna(cfg: Config, k: Sock, r: Sock)
    requires Windowed(cfg) && Win(cfg, k) && Fits(cfg.arith, r.sndUna)
    requires r.sndNxt == k.sndNxt && r.sndMax == k.sndMax && 1 <= r.sndWindow <= SEND_WINDOW_MAX
    requires Ahead(cfg, k, r)
    ensures Win(cfg, r)
  {
    Rebase(cfg.arith, k.sndNxt, k.sndUna, r.sndUna);
    Rebase(cfg.arith, k.sndMax, k.sndUna, r.sndUna);
  }

  /** tcp_check_sequence on any segment. */
  lemma CheckWindow(cfg: Config, now: nat, st: St, g: Segment)
    requires Windowed(cfg) && Win(cfg, st.sk) && st.sk.state == Established
    requires Fits(cfg.arith, g.ack)
    ensures var (r, ok) := CheckSequence(cfg, now, st, g);
            Win(cfg, r.sk) && Ahead(cfg, st.sk, r.sk) && r.sk.state == Established
  {
    hide ResendFirst, DoRetransmit, Win;
    var k := st.sk;
    var (r, ok) := CheckSequence(cfg, now, st, g);
    FlightIsNat(cfg, k);
    WinFacts(cfg, k);
    if g.ack == k.sndNxt && g.seqno == k.rcvNxt {
      MovedUna(cfg, k, r.sk);
    } else if Diff(cfg.arith, g.ack, k.sndNxt) <= 0 && Diff(cfg.arith, g.ack, k.sndUna) > 0 {
      AckInFlight(cfg.arith, g.ack, k.sndUna, k.sndNxt);
      MovedUna(cfg, k, r.sk);
    } else {
      var st1 := st.(sk := k.(retrans := (k.retrans + 1) % 8));
      ResendFirstWindow(cfg, now, st1);
      MovedUna(cfg, k, r.sk);
    }
  }

  lemma WinFacts(cfg: Config, k: Sock)
    requires Windowed(cfg) && Win(cfg, k)
    ensures 0 <= Dist(cfg.arith, k.sndNxt, k.sndUna) < TWO31 && 1 <= k.sndWindow <= SEND_WINDOW_MAX
    ensures Fits(cfg.arith, k.sndUna) && Fits(cfg.arith, k.sndNxt)
  {
  }

  lemma RetransmitWindow(cfg: Config, now: nat, st: St)
    requires Windowed(cfg) && Win(cfg, st.sk)
    ensures var r := DoRetransmit(cfg, now, st); Runs(cfg, st.sk, r.sk) && r.sk.state in {st.sk.state, Closed}
  {
    hide Reply, ResendFirst, Win, Place;
    FlightIsNat(cfg, st.sk);
    WinFacts(cfg, st.sk);
    var st1 := st.(sk := st.sk.(retrans := (st.sk.retrans + 1) % 8));
    ResendFirstWindow(cfg, now, st1);
    ReplyLeaves(cfg, now, st1, st1.sk.flags);
    MovedUna(cfg, st.sk, DoRetransmit(cfg, now, st).sk);
  }

  /** Window and acknowledged bytes are whole packets. */
  predicate Aligned(cfg: Config, k: Sock) {
    Multiple(Dist(cfg.arith, k.sndMax, k.sndUna), cfg.dataLen) && Multiple(cfg.sendWindow, cfg.dataLen)
  }

  lemma WinAligned(cfg: Config, k: Sock)
    ensures Win(cfg, k) && Aligned(cfg, k) ==> Dist(cfg.arith, k.sndNxt, k.sndUna) <= cfg.sendWindow
  {
    if Win(cfg, k) && Aligned(cfg, k) {
      AlignedFlight(cfg, Dist(cfg.arith, k.sndNxt, k.sndUna), Dist(cfg.arith, k.sndMax, k.sndUna));
    }
  }

  lemma {:induction false} Over(cfg: Config, st: St, es: seq<(nat, Event)>)
    requires st.sk.state != Established
    ensures Respond(cfg, st, es) == st
    decreases |es|
  {
    if es != [] { Over(cfg, st, es[1..]); }
  }

  // ---------------------------------------------------------------- where it starts

  /** Numbers that a request may find: fitting, with a flight under the window plus one packet. */
  predicate Ready(cfg: Config, k: Sock) {
    && Fits(cfg.arith, k.sndUna) && Fits(cfg.arith, k.sndNxt) && 1 <= k.sndWindow <= SEND_WINDOW_MAX
    && 0 <= Dist(cfg.arith, k.sndNxt, k.sndUna) < cfg.sendWindow + cfg.dataLen
  }

  /** The state in which a request is answered: the whole response to send, behind what is in flight. */
  lemma Opening(cfg: Config, st: St) returns (st1: St)
    requires Windowed(cfg) && Ready(cfg, st.sk)
    ensures st1 == st.(sk := st.sk.(sndMax := Add(cfg.arith, st.sk.sndNxt, cfg.payload), httpAck := false),
                       stats := st.stats.(rsp := st.stats.rsp + 1))
    ensures Numbers(cfg, st1.sk)
    ensures Dist(cfg.arith, st1.sk.sndMax, st1.sk.sndUna) == Dist(cfg.arith, st.sk.sndNxt, st.sk.sndUna) + cfg.payload
  {
    AddDist(cfg.arith, st.sk.sndNxt, cfg.payload, st.sk.sndUna);
    st1 := st.(sk := st.sk.(sndMax := Add(cfg.arith, st.sk.sndNxt, cfg.payload), httpAck := false),
               stats := st.stats.(rsp := st.stats.rsp + 1));
  }

  lemma MultipleLess(x: int, m: nat)
    requires m > 0
    ensures Multiple(x, m) <==> Multiple(x - m, m)
  {
    ProductMultiple(-1, m);
    if Multiple(x, m) { MultipleStep(x, m); }
    if Multiple(x - m, m) { MultipleSub(x - m, -1 * m, m); }
  }

  lemma StartRetransmitLeaves(st: St, now: nat)
    ensures var r := StartRetransmit(st, now); r.sk == st.sk.(ring := r.sk.ring, timer := r.sk.timer)
  {
  }

  lemma WinIgnores(cfg: Config, k: Sock, r: Sock)
    requires r == k.(ring := r.ring, timer := r.timer, requests := r.requests)
    ensures Win(cfg, r) <==> Win(cfg, k)
  {
  }

  /** The first request of a connection opens the window exactly when the response is
      whole packets, and not empty if a packet is sent for it. */
  lemma FirstRequestOpens(cfg: Config, now: nat, st: St)
    requires Windowed(cfg) && Ready(cfg, st.sk) && st.sk.state == Established && st.sk.requests == 0
    ensures Win(cfg, ServeWindowed(cfg, now, st).sk)
       <==> Multiple(cfg.payload, cfg.dataLen) && (cfg.payload > 0 || !Granted(st.pool) || st.sk.sndUna != st.sk.sndNxt)
  {
    hide Reply, StartRetransmit, Win;
    var st1 := Opening(cfg, st);
    var f := Dist(cfg.arith, st.sk.sndNxt, st.sk.sndUna);
    var r := Reply(cfg, now, st1, PUSH_ACK);
    ReplyLeaves(cfg, now, st1, PUSH_ACK);
    var r1 := r.(sk := r.sk.(requests := 1));
    StartRetransmitLeaves(r1, now);
    WinIgnores(cfg, r.sk, StartRetransmit(r1, now).sk);
    if st.sk.sndUna == st.sk.sndNxt {
      SendNext(cfg, now, st1, st1.sk.sndUna, PUSH_ACK);
      MultipleLess(cfg.payload, cfg.dataLen);
      if Multiple(cfg.payload, cfg.dataLen) { MultipleStep(cfg.payload, cfg.dataLen); }
      WinIs(cfg, r.sk, if Granted(st.pool) then cfg.dataLen else 0, cfg.payload);
    } else {
      WinIs(cfg, r.sk, f, f + cfg.payload);
    }
  }

  lemma WinIs(cfg: Config, k: Sock, f: int, t: int)
    requires Numbers(cfg, k) && f == Dist(cfg.arith, k.sndNxt, k.sndUna) && t == Dist(cfg.arith, k.sndMax, k.sndUna)
    requires 1 <= k.sndWindow <= SEND_WINDOW_MAX
    ensures Win(cfg, k) <==> WinAt(cfg, f, t)
  {
  }

  /** A burst sends whole packets, whatever the response is a multiple of. */
  lemma {:induction false} BurstMultiple(cfg: Config, now: nat, st: St, una: int, k: nat)
    requires Windowed(cfg) && Numbers(cfg, st.sk) && Fits(cfg.arith, una)
    requires 0 <= Dist(cfg.arith, st.sk.sndMax, una) <= Room(cfg)
    requires 0 <= Dist(cfg.arith, st.sk.sndNxt, una) <= Room(cfg) + cfg.dataLen
    ensures var r := Burst(cfg, now, st, Add(cfg.arith, una, cfg.sendWindow), st.sk.sndMax, k);
            && Numbers(cfg, r.sk) && r.sk.sndMax == st.sk.sndMax && r.sk.sndWindow == st.sk.sndWindow
            && Multiple(Dist(cfg.arith, r.sk.sndNxt, una) - Dist(cfg.arith, st.sk.sndNxt, una), cfg.dataLen)
    decreases k
  {
    assert Multiple(0, cfg.dataLen);
    var limit, max := Add(cfg.arith, una, cfg.sendWindow), st.sk.sndMax;
    var f := Dist(cfg.arith, st.sk.sndNxt, una);
    var st1 := st.(sk := st.sk.(sndUna := st.sk.sndNxt));
    var st2 := Reply(cfg, now, st1, PUSH_ACK_URG);
    if k > 0 && Diff(cfg.arith, st.sk.sndNxt, limit) < 0 && Diff(cfg.arith, st.sk.sndNxt, max) < 0 {
      assert Burst(cfg, now, st, limit, max, k) == Burst(cfg, now, st2, limit, max, k - 1);
      hide Reply, Burst, Multiple, Dist, Diff, Add;
      DiffFrom(cfg.arith, st.sk.sndNxt, max, una);
      SendNext(cfg, now, st1, una, PUSH_ACK_URG);
      BurstMultiple(cfg, now, st2, una, k - 1);
      MultipleLess(Dist(cfg.arith, Burst(cfg, now, st2, limit, max, k - 1).sk.sndNxt, una) - f, cfg.dataLen);
    }
  }

  /** Every later request opens it with a burst, under the same condition. */
  lemma NextRequestOpens(cfg: Config, now: nat, st: St)
    requires Windowed(cfg) && Ready(cfg, st.sk) && st.sk.state == Established && st.sk.requests != 0 && cfg.payload > 0
    ensures Win(cfg, ServeWindowed(cfg, now, st).sk) <==> Multiple(cfg.payload, cfg.dataLen)
  {
    hide ReplyMore, StartRetransmit, Win, Multiple;
    var st1 := Opening(cfg, st);
    var f := Dist(cfg.arith, st.sk.sndNxt, st.sk.sndUna);
    var r := ReplyMore(cfg, now, st1);
    StartRetransmitLeaves(r, now);
    WinIgnores(cfg, r.sk, StartRetransmit(r, now).sk);
    if Multiple(cfg.payload, cfg.dataLen) {
      WinIs(cfg, st1.sk, f, f + cfg.payload);
      ReplyMoreWindow(cfg, now, st1);
    } else {
      NextRequestFails(cfg, now, st1);
    }
  }

  lemma NextRequestFails(cfg: Config, now: nat, st: St)
    requires Windowed(cfg) && Numbers(cfg, st.sk) && Ready(cfg, st.sk) && !Multiple(cfg.payload, cfg.dataLen)
    requires cfg.payload > 0
    requires Dist(cfg.arith, st.sk.sndMax, st.sk.sndUna) == Dist(cfg.arith, st.sk.sndNxt, st.sk.sndUna) + cfg.payload
    ensures !Win(cfg, ReplyMore(cfg, now, st).sk)
  {
    var una, f := st.sk.sndUna, Dist(cfg.arith, st.sk.sndNxt, st.sk.sndUna);
    assert una != st.sk.sndMax;
    hide Burst, Reply, Multiple, Dist, Diff, Add;
    BurstMultiple(cfg, now, st, una, st.sk.sndWindow);
    var b := Burst(cfg, now, st, Add(cfg.arith, una, cfg.sendWindow), st.sk.sndMax, st.sk.sndWindow);
    assert ReplyMore(cfg, now, st).sk == b.sk.(sndUna := una);
    var f' := Dist(cfg.arith, b.sk.sndNxt, una);
    if Multiple(f + cfg.payload - f', cfg.dataLen) { MultipleAdd(f + cfg.payload - f', f' - f, cfg.dataLen); }
  }

  lemma MultipleAdd(x: int, y: int, m: nat)
    requires Multiple(x, m) && Multiple(y, m)
    ensures Multiple(x + y, m)
  {
    MultipleSub(0, y, m);
    MultipleSub(x, 0 - y, m);
  }

  // ---------------------------------------------------------------- event by event

  /** A segment, with or without data, or an expiry of either ring. */
  datatype Event = Arrives(g: Segment) | Retransmits | TimesOut

  /** An acknowledgement without data, any numbers. */
  predicate Dataless(g: Segment) {
    g.len == 0 && g.flags.ack && !g.flags.syn && !g.flags.rst && !g.flags.fin
  }

  predicate DatalessEvent(e: Event) { e.Arrives? ==> Dataless(e.g) }

  /** Any numbers; a request only where responses are whole packets. */
  predicate Regular(cfg: Config, e: Event) {
    e.Arrives? ==> Fits(cfg.arith, e.g.ack) && (e.g.len > 0 ==> cfg.payload > 0 && Multiple(cfg.payload, cfg.dataLen))
  }

  /** Nothing happens once the connection leaves ESTABLISHED. */
  function Step(cfg: Config, now: nat, st: St, e: Event): St {
    if st.sk.state != Established then st
    else
      match e
      case Arrives(g) => Server(cfg, now, st, g)
      case Retransmits => RetransmitExpiry(cfg, now, st)
      case TimesOut => TimeoutExpiry(st)
  }

  function Respond(cfg: Config, st: St, es: seq<(nat, Event)>): St
    decreases |es|
  {
    if es == [] then st else Respond(cfg, Step(cfg, es[0].0, st, es[0].1), es[1..])
  }

  lemma StepWindow(cfg: Config, now: nat, st: St, e: Event)
    requires Windowed(cfg) && Win(cfg, st.sk) && st.sk.state == Established && DatalessEvent(e) && Regular(cfg, e)
    ensures var r := Step(cfg, now, st, e);
            Runs(cfg, st.sk, r.sk) && r.sk.state in {Established, FinWait1, Closed}
  {
    hide CheckSequence, ReplyMore, DoRetransmit, Win, Place;
    FlightIsNat(cfg, st.sk);
    match e {
      case Arrives(g) =>
        CheckWindow(cfg, now, st, g);
        var (r, ok) := CheckSequence(cfg, now, st, g);
        if ok { ReplyMoreWindow(cfg, now, r); }
      case Retransmits =>
        SameNumbers(cfg, st.sk, Move(st, NoRing).sk);
        RetransmitWindow(cfg, now, Move(st, NoRing));
      case TimesOut =>
    }
  }

  /** Only forward, and never past what was sent. */
  predicate Forward(cfg: Config, k: Sock, r: Sock) {
    0 <= Dist(cfg.arith, r.sndUna, k.sndUna) <= Dist(cfg.arith, k.sndNxt, k.sndUna)
  }

  /** Any segment or expiry, requests in the middle of a response included. */
  lemma AnyStepWindow(cfg: Config, now: nat, st: St, e: Event)
    requires Windowed(cfg) && Win(cfg, st.sk) && st.sk.state == Established && Regular(cfg, e)
    ensures var r := Step(cfg, now, st, e);
            Forward(cfg, st.sk, r.sk) && (r.sk.state == Established ==> Win(cfg, r.sk))
  {
    hide CheckSequence, ReplyMore, DoRetransmit, Win, Place, ServeWindowed, ServerFinish;
    FlightIsNat(cfg, st.sk);
    if DatalessEvent(e) {
      hide Server;
      StepWindow(cfg, now, st, e);
    } else {
      var g := e.g;
      CheckWindow(cfg, now, st, g);
      var (r, ok) := CheckSequence(cfg, now, st, g);
      var st3 := r.(stats := r.stats.(req := r.stats.req + 1));
      if ok && g.len > 0 && !g.flags.fin { RequestWindow(cfg, now, st3); }
      FinLeaves(cfg, now, st3, g.flags, if st3.sk.keepalive then PUSH_ACK else PUSH_ACK_FIN);
      FinLeaves(cfg, now, r, g.flags, NONE);
    }
  }

  /** A FIN is answered with the numbers as they are, and leaves ESTABLISHED. */
  lemma FinLeaves(cfg: Config, now: nat, st: St, rx: Flags, tx: Flags)
    ensures st.sk.state == Established && rx.fin ==>
              var r := ServerFinish(cfg, now, st, rx, tx).sk; r.state == LastAck && r.sndUna == st.sk.sndUna
  {
    hide Reply;
    var (st1, f) := ProcessFin(st, rx, tx);
    ReplyLeaves(cfg, now, st1, f);
  }

  lemma RequestWindow(cfg: Config, now: nat, st: St)
    requires Windowed(cfg) && Win(cfg, st.sk) && st.sk.state == Established
    requires cfg.payload > 0 && Multiple(cfg.payload, cfg.dataLen)
    ensures var r := ServeWindowed(cfg, now, st); r.sk.sndUna == st.sk.sndUna && Win(cfg, r.sk)
  {
    hide ServeWindowed, Multiple;
    RequestLeaves(cfg, now, st);
    if st.sk.requests == 0 { FirstRequestOpens(cfg, now, st); } else { NextRequestOpens(cfg, now, st); }
  }

  lemma RequestLeaves(cfg: Config, now: nat, st: St)
    ensures ServeWindowed(cfg, now, st).sk.sndUna == st.sk.sndUna
  {
    hide Reply, Burst;
    var st1 := st.(sk := st.sk.(sndMax := Add(cfg.arith, st.sk.sndNxt, cfg.payload), httpAck := false),
                   stats := st.stats.(rsp := st.stats.rsp + 1));
    ReplyLeaves(cfg, now, st1, PUSH_ACK);
    MoreLeaves(cfg, now, st1);
  }

  lemma MoreLeaves(cfg: Config, now: nat, st: St)
    ensures ReplyMore(cfg, now, st).sk.sndUna == st.sk.sndUna
  {
    hide Reply, Burst;
    var b := Burst(cfg, now, st, Add(cfg.arith, st.sk.sndUna, cfg.sendWindow), st.sk.sndMax, st.sk.sndWindow);
    ReplyLeaves(cfg, now, b.(sk := b.sk.(sndUna := st.sk.sndUna, state := FinWait1)), FIN_ACK);
    TimeoutLeaves(b.(sk := b.sk.(sndUna := st.sk.sndUna)), now);
  }

  lemma SameNumbers(cfg: Config, k: Sock, r: Sock)
    requires Win(cfg, k) && r == k.(ring := r.ring)
    ensures Win(cfg, r)
  {
  }

  /** Under any sequence of segments (acknowledgements and requests, any numbers) and timer
      expiries, at every handler boundary snd_una <= snd_nxt <= snd_max, what is left to
      send is whole packets, the flight stays under the window plus one packet and the
      congestion window within 1 and 16. While no request comes in, snd_max stays and
      snd_una has only come closer to it. */
  lemma {:induction false} WindowKept(cfg: Config, st: St, es: seq<(nat, Event)>)
    requires Windowed(cfg) && Win(cfg, st.sk) && st.sk.state == Established
    requires forall e :: e in es ==> Regular(cfg, e.1)
    ensures var r := Respond(cfg, st, es);
            && (r.sk.state == Established ==> Win(cfg, r.sk))
            && (r.sk.state == Established && Aligned(cfg, r.sk) ==>
                Dist(cfg.arith, r.sk.sndNxt, r.sk.sndUna) <= cfg.sendWindow)
            && ((forall e :: e in es ==> DatalessEvent(e.1)) ==>
                  r.sk.state in {Established, FinWait1, Closed} && r.sk.sndMax == st.sk.sndMax
                      && Left(cfg, r.sk) <= Left(cfg, st.sk))
    decreases |es|
  {
    WinAligned(cfg, Respond(cfg, st, es).sk);
    if es != [] {
      hide Step, Win;
      assert es[0] in es;
      var st1 := Step(cfg, es[0].0, st, es[0].1);
      AnyStepWindow(cfg, es[0].0, st, es[0].1);
      if DatalessEvent(es[0].1) {
        StepWindow(cfg, es[0].0, st, es[0].1);
        AheadLeaves(cfg, st.sk, st1.sk);
      }
      if st1.sk.state == Established {
        WindowKept(cfg, st1, es[1..]);
      } else {
        Over(cfg, st1, es[1..]);
      }
    }
  }
}
