/** The sockets of a worker: one array filled in nested loops, found again by
    mixed radix arithmetic behind a table on the low half of the client address. */
module SocketTable {
  import opened Options
  import opened Radix
  import opened RoundRobin

  // ---------------------------------------------------------------- configuration

  datatype Config = Config(
    server: bool,
    fdir: bool,              // flow == FLOW_FDIR: one server address for each queue
    clientHop: bool,
    listen: nat, listenNum: nat,
    lportMin: nat, lportMax: nat,
    group: seq<seq<nat>>,    // client_ip_group: ranges of addresses
    range: seq<nat>,         // the port's own client range
    serverStart: nat, serverNum: nat,
    queue: nat)

  predicate Sane(c: Config) {
    && 1 <= c.lportMin <= c.lportMax < 0x1_0000
    && 1 <= c.listen && 1 <= c.listenNum && c.listen + c.listenNum < 0xffff
    && 1 <= c.serverNum && c.serverStart + c.serverNum < 0x1_0000_0000
  }

  function Flatten(group: seq<seq<nat>>): seq<nat> {
    if group == [] then [] else group[0] + Flatten(group[1..])
  }

  /** The client addresses, in the order they are laid out. */
  function Clients(c: Config): seq<nat> {
    if c.server then Flatten(c.group) else c.range
  }

  /** The box of ports and server addresses that every client address has. */
  datatype Shape = Shape(ipMin: nat, ipNum: nat, portMin: nat, portNum: nat, cportMin: nat, cportNum: nat)

  predicate Solid(sh: Shape) { sh.ipNum > 0 && sh.portNum > 0 && sh.cportNum > 0 }

  function ShapeOf(c: Config): (sh: Shape)
    requires Sane(c)
    ensures Solid(sh)
  {
    Shape(if c.fdir then c.serverStart + c.queue % 256 % c.serverNum else c.serverStart,
          if c.fdir then 1 else c.serverNum, c.listen, c.listenNum, c.lportMin, c.lportMax - c.lportMin + 1)
  }

  function Size(sh: Shape): nat { sh.cportNum * (sh.portNum * sh.ipNum) }

  /** config_client_ip_range_socket_num, for a range of `n` addresses. */
  function RangeSocketNum(c: Config, n: nat): nat
    requires Sane(c)
  {
    n * c.listenNum * (c.lportMax - c.lportMin + 1)
  }

  lemma RangesAdd(c: Config, m: nat, n: nat)
    requires Sane(c)
    ensures RangeSocketNum(c, 0) == 0
    ensures RangeSocketNum(c, m + n) == RangeSocketNum(c, m) + RangeSocketNum(c, n)
  {
    var x, y := c.listenNum, c.lportMax - c.lportMin + 1;
    assert (m + n) * x == m * x + n * x;
    assert (m * x + n * x) * y == m * x * y + n * x * y;
  }

  lemma RangesFill(c: Config, n: nat)
    requires Sane(c)
    ensures RangeSocketNum(c, n) * ShapeOf(c).ipNum == n * Size(ShapeOf(c))
  {
    Reorder(n, c.listenNum, c.lportMax - c.lportMin + 1, ShapeOf(c).ipNum);
  }

  lemma Reorder(n: nat, x: nat, y: nat, z: nat)
    ensures n * x * y * z == n * (y * (x * z))
  {
    assert y * (x * z) == x * y * z;
    assert n * (x * y * z) == n * x * y * z;
  }

  /** config_get_total_socket_num. */
  method TotalSocketNum(c: Config) returns (total: nat)
    requires Sane(c)
    ensures total == |Clients(c)| * Size(ShapeOf(c))
  {
    hide RangeSocketNum, Size;
    var num := 0;
    RangesAdd(c, 0, 0);
    if c.server {
      var i := 0;
      assert c.group[..0] == [];
      while i < |c.group|
        invariant i <= |c.group|
        invariant num == RangeSocketNum(c, |Flatten(c.group[..i])|)
      {
        FlattenMore(c.group, i);
        RangesAdd(c, |Flatten(c.group[..i])|, |c.group[i]|);
        num := num + RangeSocketNum(c, |c.group[i]|);
        i := i + 1;
      }
      assert c.group[..i] == c.group;
    } else {
      num := RangeSocketNum(c, |c.range|);
    }
    RangesFill(c, |Clients(c)|);
    total := if c.fdir then num else num * c.serverNum;
  }

  lemma {:induction false} FlattenMore(group: seq<seq<nat>>, i: nat)
    requires i < |group|
    ensures Flatten(group[..i + 1]) == Flatten(group[..i]) + group[i]
    decreases i
  {
    if i > 0 {
      assert group[..i + 1][1..] == group[1..][..i] && group[..i][1..] == group[1..][..i - 1];
      FlattenMore(group[1..], i - 1);
    } else {
      assert group[..1] == [group[0]] && group[..0] == [];
    }
  }

  // ---------------------------------------------------------------- the index

  datatype Tuple = Tuple(cip: nat, cport: nat, sip: nat, sport: nat)

  predicate Fits(sh: Shape, t: Tuple) {
    && sh.cportMin <= t.cport < sh.cportMin + sh.cportNum
    && sh.portMin <= t.sport < sh.portMin + sh.portNum
    && sh.ipMin <= t.sip < sh.ipMin + sh.ipNum
  }

  /** The index computed by socket_port_table_get. */
  function Index(sh: Shape, cport: int, sport: int, sip: int): int {
    (cport - sh.cportMin) * (sh.portNum * sh.ipNum) + (sport - sh.portMin) * sh.ipNum + (sip - sh.ipMin)
  }

  /** What lies at position `r` of the sockets of one client address. */
  function TupleIn(sh: Shape, client: nat, r: nat): Tuple
    requires Solid(sh)
  {
    Positive(sh.portNum, sh.ipNum);
    var low := r % (sh.portNum * sh.ipNum);
    Tuple(client, sh.cportMin + r / (sh.portNum * sh.ipNum), sh.ipMin + low % sh.ipNum, sh.portMin + low / sh.ipNum)
  }

  /** The client address that position `k` of the pool belongs to. */
  function Which(sh: Shape, k: nat): (i: nat)
    requires Solid(sh)
  {
    Positive(sh.portNum, sh.ipNum);
    Positive(sh.cportNum, sh.portNum * sh.ipNum);
    k / Size(sh)
  }

  /** What lies at position `k` of the pool. */
  function TupleAt(sh: Shape, clients: seq<nat>, k: nat): Tuple
    requires Solid(sh) && k < |clients| * Size(sh)
  {
    PositionBound(|clients|, Size(sh), k);
    TupleIn(sh, clients[Which(sh, k)], k % Size(sh))
  }

  /** The position of a tuple of client address number `i`. */
  function Spot(sh: Shape, i: nat, t: Tuple): int {
    i * Size(sh) + Index(sh, t.cport, t.sport, t.sip)
  }

  lemma IndexBound(sh: Shape, t: Tuple)
    requires Fits(sh, t)
    ensures 0 <= Index(sh, t.cport, t.sport, t.sip) < Size(sh)
  {
    var low := (t.sport - sh.portMin) * sh.ipNum + (t.sip - sh.ipMin);
    RadixBound(t.sport - sh.portMin, sh.portNum, t.sip - sh.ipMin, sh.ipNum);
    RadixBound(t.cport - sh.cportMin, sh.cportNum, low, sh.portNum * sh.ipNum);
  }

  /** Where a tuple is put is where it is read: the layout has no overlap. */
  lemma TupleAtIndex(sh: Shape, clients: seq<nat>, i: nat, t: Tuple)
    requires i < |clients| && t.cip == clients[i] && Fits(sh, t)
    ensures Solid(sh) && 0 <= Spot(sh, i, t) < |clients| * Size(sh)
    ensures TupleAt(sh, clients, Spot(sh, i, t)) == t && Which(sh, Spot(sh, i, t)) == i
  {
    IndexBound(sh, t);
    var r := Index(sh, t.cport, t.sport, t.sip);
    RadixBound(i, |clients|, r, Size(sh));
    Digits(i, r, Size(sh));
    var low := (t.sport - sh.portMin) * sh.ipNum + (t.sip - sh.ipMin);
    RadixBound(t.sport - sh.portMin, sh.portNum, t.sip - sh.ipMin, sh.ipNum);
    Digits(t.cport - sh.cportMin, low, sh.portNum * sh.ipNum);
    Digits(t.sport - sh.portMin, t.sip - sh.ipMin, sh.ipNum);
  }

  lemma BoxOf(sh: Shape, client: nat, r: nat)
    requires Solid(sh) && r < Size(sh)
    ensures var t := TupleIn(sh, client, r); Fits(sh, t) && r == Index(sh, t.cport, t.sport, t.sip)
  {
    Positive(sh.portNum, sh.ipNum);
    ThreeDigits(sh.cportNum, sh.portNum, sh.ipNum, r);
  }

  /** Every position holds a tuple of the box: the layout has no gap. */
  lemma IndexOfTupleAt(sh: Shape, clients: seq<nat>, k: nat)
    requires Solid(sh) && k < |clients| * Size(sh)
    ensures var t, i := TupleAt(sh, clients, k), Which(sh, k);
            i < |clients| && t.cip == clients[i] && Fits(sh, t) && k == Spot(sh, i, t)
  {
    PositionBound(|clients|, Size(sh), k);
    BoxOf(sh, clients[Which(sh, k)], k % Size(sh));
  }

  /** One step of the innermost loop moves one position, and so do the carries. */
  lemma IndexSteps(sh: Shape, cport: int, sport: int, sip: int)
    ensures Index(sh, cport, sport, sip + 1) == Index(sh, cport, sport, sip) + 1
    ensures Index(sh, cport, sport, sh.ipMin + sh.ipNum) == Index(sh, cport, sport + 1, sh.ipMin)
    ensures Index(sh, cport, sh.portMin + sh.portNum, sh.ipMin) == Index(sh, cport + 1, sh.portMin, sh.ipMin)
    ensures Index(sh, sh.cportMin, sh.portMin, sh.ipMin) == 0
    ensures Index(sh, sh.cportMin + sh.cportNum, sh.portMin, sh.ipMin) == Size(sh)
  {
    assert (sport + 1 - sh.portMin) * sh.ipNum == (sport - sh.portMin) * sh.ipNum + sh.ipNum;
    assert (cport + 1 - sh.cportMin) * (sh.portNum * sh.ipNum) == (cport - sh.cportMin) * (sh.portNum * sh.ipNum) +
        sh.portNum * sh.ipNum;
  }

  // ---------------------------------------------------------------- the table

  /** The addressing fields of a socket. */
  datatype Slot = Slot(laddr: nat, faddr: nat, lport: nat, fport: nat)

  /** socket_init: the server's end is the local one on a server. */
  function SlotOf(server: bool, t: Tuple): Slot {
    if server then Slot(t.sip, t.cip, t.sport, t.cport) else Slot(t.cip, t.sip, t.cport, t.sport)
  }

  /** The addressing fields of an arriving packet. */
  datatype Packet = Packet(saddr: nat, daddr: nat, sport: nat, dport: nat)

  /** A server reads the client's end off the source, a client off the destination. */
  function TupleOf(server: bool, g: Packet): Tuple {
    if server then Tuple(g.saddr, g.sport, g.daddr, g.dport) else Tuple(g.daddr, g.dport, g.saddr, g.sport)
  }

  /** The socket an arriving packet is meant for: its local end is the packet's destination. */
  function MeantFor(g: Packet): Slot { Slot(g.daddr, g.saddr, g.dport, g.sport) }

  function Low(address: nat): nat { address % 0x1_0000 }

  /** The last of the first `n` client addresses whose low half is `x`. */
  function Last(clients: seq<nat>, n: nat, x: nat): (i: Option)
    requires n <= |clients|
    ensures i.Some? ==> i.id < n && Low(clients[i.id]) == x
    ensures i.None? ==> forall j :: 0 <= j < n ==> Low(clients[j]) != x
  {
    if n == 0 then None else if Low(clients[n - 1]) == x then Some(n - 1) else Last(clients, n - 1, x)
  }

  /** The entry of the hash table: where the sockets of that address begin. */
  function Head(sh: Shape, clients: seq<nat>, n: nat, x: nat): Option
    requires n <= |clients|
  {
    match Last(clients, n, x)
    case None => None
    case Some(i) => Some(i * Size(sh))
  }

  /** Everything but the hash table, the pool and `next` is set once. */
  class Table {
    const cfg: Config
    const ipNum: nat
    const ipMin: nat
    const ipMax: nat
    const portMin: nat
    const portMax: nat
    const cportMin: nat
    const cportMax: nat
    const ipPortNum: nat       // server_ip_port_num
    const ht: array<Option>
    const base: array<Slot>    // socket_pool.base; its length is socket_pool.num
    var next: nat              // socket_pool.next

    ghost predicate Shaped() {
      && Sane(cfg)
      && var sh := ShapeOf(cfg);
         && ipNum == sh.ipNum && ipMin == sh.ipMin && ipMax == sh.ipMin + sh.ipNum - 1
         && portMin == sh.portMin && portMax == sh.portMin + sh.portNum - 1
         && cportMin == sh.cportMin && cportMax == sh.cportMin + sh.cportNum - 1
         && ipPortNum == sh.portNum * sh.ipNum
         && ht.Length == 0x1_0000 && base.Length == |Clients(cfg)| * Size(sh)
    }

    /** The first `k` sockets are laid out. */
    ghost predicate Laid(k: nat)
      requires Shaped()
      reads base
    {
      && k <= base.Length
      && forall j :: 0 <= j < k ==> base[j] == SlotOf(cfg.server, TupleAt(ShapeOf(cfg), Clients(cfg), j))
    }

    /** The first `n` client addresses are in the hash table. */
    ghost predicate Hashed(n: nat)
      requires Shaped()
      reads ht
    {
      n <= |Clients(cfg)| && forall x :: 0 <= x < 0x1_0000 ==> ht[x] == Head(ShapeOf(cfg), Clients(cfg), n, x)
    }

    /** A finished table. */
    ghost predicate Built()
      reads ht, base
    {
      Shaped() && Laid(base.Length) && Hashed(|Clients(cfg)|)
    }

    /** socket_table_init over the memory that work_space_alloc reserves. */
    constructor (c: Config)
      requires Sane(c)
      ensures cfg == c && Built() && next == 0 && fresh(base) && fresh(ht)
    {
      var num := TotalSocketNum(c);
      cfg := c;
      base := new Slot[num](_ => Slot(0, 0, 0, 0));
      ht := new Option[0x1_0000](_ => None);
      next := 0;
      if c.fdir {
        var ip := c.serverStart + c.queue % 256 % c.serverNum;
        ipNum, ipMin, ipMax, ipPortNum := 1, ip, ip, c.listenNum;
      } else {
        ipNum, ipMin, ipMax := c.serverNum, c.serverStart, c.serverStart + c.serverNum - 1;
        ipPortNum := c.serverNum * c.listenNum;
      }
      portMin, portMax := c.listen, c.listen + c.listenNum - 1;
      cportMin, cportMax := c.lportMin, c.lportMax;
      new;
      if cfg.server {
        InitGroup();
      } else {
        InitRange(cfg.range, 0);
      }
      next := 0;
    }

    /** socket_port_table_init_ip_group. */
    method InitGroup()
      requires Shaped() && cfg.server && Laid(0) && Hashed(0) && next == 0
      modifies this`next, ht, base
      ensures Built()
    {
      var i := 0;
      assert cfg.group[..0] == [];
      while i < |cfg.group|
        invariant i <= |cfg.group| && |Flatten(cfg.group[..i])| <= |Clients(cfg)|
        invariant next == |Flatten(cfg.group[..i])| * Size(ShapeOf(cfg)) && Laid(next)
        invariant Hashed(|Flatten(cfg.group[..i])|)
      {
        FlattenMore(cfg.group, i);
        FlattenPrefix(cfg.group, i + 1);
        InitRange(cfg.group[i], |Flatten(cfg.group[..i])|);
        i := i + 1;
      }
      assert cfg.group[..i] == cfg.group;
    }

    /** socket_port_table_init_ip_range: the addresses from number `n` on. */
    method InitRange(range: seq<nat>, ghost n: nat)
      requires Shaped() && n + |range| <= |Clients(cfg)| && Clients(cfg)[n..n + |range|] == range
      requires next == n * Size(ShapeOf(cfg)) && Laid(next) && Hashed(n)
      modifies this`next, ht, base
      ensures next == (n + |range|) * Size(ShapeOf(cfg)) && Laid(next) && Hashed(n + |range|)
    {
      var i := 0;
      while i < |range|
        invariant i <= |range|
        invariant next == (n + i) * Size(ShapeOf(cfg)) && Laid(next) && Hashed(n + i)
      {
        hide Size, Laid, Index;
        assert Clients(cfg)[n..n + |range|][i] == Clients(cfg)[n + i];
        var pt := NewPortTable(range[i], n + i);
        ht[Low(range[i])] := Some(pt);
        i := i + 1;
      }
    }

    /** socket_init of the socket at position `at`. */
    method SocketInit(at: nat, t: Tuple, ghost i: nat)
      requires Shaped() && Laid(at) && i < |Clients(cfg)| && t.cip == Clients(cfg)[i] && Fits(ShapeOf(cfg), t)
      requires at == Spot(ShapeOf(cfg), i, t)
      modifies base
      ensures Laid(at + 1)
    {
      TupleAtIndex(ShapeOf(cfg), Clients(cfg), i, t);
      hide Size, Spot, Which, TupleAt;
      base[at] := SlotOf(cfg.server, t);
    }

    /** The innermost loop of socket_port_table_new: every server address. */
    method InitServers(client: nat, table: nat, port: nat, serverPort: nat, ghost i: nat)
      requires Shaped() && i < |Clients(cfg)| && Clients(cfg)[i] == client
      requires cportMin <= port <= cportMax && portMin <= serverPort <= portMax
      requires table == i * Size(ShapeOf(cfg)) && next == table + Index(ShapeOf(cfg), port, serverPort, ipMin)
      requires Laid(next)
      modifies this`next, base
      ensures next == table + Index(ShapeOf(cfg), port, serverPort, ipMin + ipNum) && Laid(next)
    {
      hide Index, Size, Laid, PortTableGet;
      ghost var sh := ShapeOf(cfg);
      var serverIp := ipMin;
      while serverIp <= ipMax
        invariant ipMin <= serverIp <= ipMax + 1
        invariant next == table + Index(sh, port, serverPort, serverIp) && Laid(next)
      {
        var at := PortTableGet(table, port, serverPort, serverIp);
        SocketInit(at, Tuple(client, port, serverIp, serverPort), i);
        IndexSteps(sh, port, serverPort, serverIp);
        next := next + 1;
        serverIp := serverIp + 1;
      }
    }

    /** socket_port_table_new for client address number `i`. */
    method NewPortTable(client: nat, ghost i: nat) returns (table: nat)
      requires Shaped() && i < |Clients(cfg)| && Clients(cfg)[i] == client
      requires next == i * Size(ShapeOf(cfg)) && Laid(next)
      modifies this`next, base
      ensures table == i * Size(ShapeOf(cfg)) && next == (i + 1) * Size(ShapeOf(cfg)) && Laid(next)
    {
      Room(ShapeOf(cfg), Clients(cfg), i);
      hide Index, Size, Laid, PortTableGet;
      ghost var sh := ShapeOf(cfg);
      table := next;
      var port := cportMin;
      IndexSteps(sh, port, portMin, ipMin);
      while port <= cportMax
        invariant cportMin <= port <= cportMax + 1
        invariant next == table + Index(sh, port, sh.portMin, sh.ipMin) && Laid(next)
      {
        var serverPort := portMin;
        while serverPort <= portMax
          invariant portMin <= serverPort <= portMax + 1
          invariant next == table + Index(sh, port, serverPort, sh.ipMin) && Laid(next)
        {
          InitServers(client, table, port, serverPort, i);
          IndexSteps(sh, port, serverPort, ipMin);
          serverPort := serverPort + 1;
        }
        IndexSteps(sh, port, serverPort, ipMin);
        port := port + 1;
      }
      IndexSteps(sh, port, portMin, ipMin);
    }

    /** socket_port_table_get. */
    function PortTableGet(table: nat, cport: nat, sport: nat, sip: nat): (at: nat)
      requires cport >= cportMin && sport >= portMin && sip >= ipMin
      ensures Shaped() ==> at == table + Index(ShapeOf(cfg), cport, sport, sip)
    {
      table + (cport - cportMin) * ipPortNum + (sport - portMin) * ipNum + (sip - ipMin)
    }

    /** socket_common_lookup. */
    function CommonLookup(t: Tuple): Option
      requires ht.Length == 0x1_0000
      reads ht
    {
      var table := ht[Low(t.cip)];
      if table != None && t.cport != 0 && ipMin <= t.sip <= ipMax && cportMin <= t.cport <= cportMax
          && portMin <= t.sport <= portMax then
        Some(PortTableGet(table.id, t.cport, t.sport, t.sip))
      else
        None
    }

    /** socket_server_lookup on a server and socket_client_lookup (not rss) on a client. */
    function Lookup(g: Packet): (r: Option)
      requires Built()
      reads ht, base
      ensures r.Some? ==> r.id < base.Length
    {
      var at := CommonLookup(TupleOf(cfg.server, g));
      LookupInBounds(this, TupleOf(cfg.server, g));
      if at != None && base[at.id].laddr == g.daddr && base[at.id].faddr == g.saddr then at else None
    }

    /** socket_table_get_socket without rss. */
    method GetSocket() returns (at: nat)
      requires next < base.Length
      modifies this`next
      ensures at == old(next) && next == AfterPick(old(next), base.Length, cfg.clientHop) && next < base.Length
    {
      at := next;
      next := next + 1;
      if next >= base.Length { next := 0; }
      if cfg.clientHop {
        next := next + 65535;
        if next >= base.Length { next := 0; }
      }
    }
  }

  lemma {:induction false} FlattenPrefix(group: seq<seq<nat>>, i: nat)
    requires i <= |group|
    ensures Flatten(group[..i]) <= Flatten(group)
    decreases |group| - i
  {
    if i < |group| {
      FlattenMore(group, i);
      FlattenPrefix(group, i + 1);
      hide Flatten;
      PrefixOf(Flatten(group[..i]), group[i], Flatten(group));
    } else {
      assert group[..i] == group;
    }
  }

  lemma PrefixOf(a: seq<nat>, b: seq<nat>, c: seq<nat>)
    requires a + b <= c
    ensures a <= c
  {
    assert (a + b)[..|a|] == a;
  }

  lemma Room(sh: Shape, clients: seq<nat>, i: nat)
    requires i < |clients|
    ensures (i + 1) * Size(sh) == i * Size(sh) + Size(sh) <= |clients| * Size(sh)
  {
    Next(i, |clients|, Size(sh));
    assert (i + 1) * Size(sh) == i * Size(sh) + Size(sh);
  }

  // ---------------------------------------------------------------- lookup is the plain map

  lemma LookupInBounds(tb: Table, t: Tuple)
    requires tb.Built()
    ensures tb.CommonLookup(t).Some? ==>
              var at := tb.CommonLookup(t).id;
              at < tb.base.Length && exists i :: Found(tb, t, i, at)
    ensures tb.CommonLookup(t).None? <==>
        (!Fits(ShapeOf(tb.cfg), t) ||
         forall i :: 0 <= i < |Clients(tb.cfg)| ==> Low(Clients(tb.cfg)[i]) != Low(t.cip))
  {
    hide Which, Index, Size, TupleAt, Last, Table.PortTableGet;
    var sh, clients := ShapeOf(tb.cfg), Clients(tb.cfg);
    var x := Low(t.cip);
    var last := Last(clients, |clients|, x);
    assert tb.ht[x] == Head(sh, clients, |clients|, x);
    if tb.CommonLookup(t).Some? {
      TupleAtIndex(sh, clients, last.id, t.(cip := clients[last.id]));
      assert Found(tb, t, last.id, tb.CommonLookup(t).id);
    }
  }

  /** What the lookup lands on: the tuple, but with the last client address of that low half. */
  ghost predicate Found(tb: Table, t: Tuple, i: nat, at: int)
    requires tb.Shaped()
    reads tb.base
  {
    var clients := Clients(tb.cfg);
    && i < |clients| && Last(clients, |clients|, Low(t.cip)) == Some(i) && Fits(ShapeOf(tb.cfg), t)
    && at == Spot(ShapeOf(tb.cfg), i, t)
    && 0 <= at < tb.base.Length && tb.base[at] == SlotOf(tb.cfg.server, t.(cip := clients[i]))
  }

  predicate DistinctLow(clients: seq<nat>) {
    forall i, j :: 0 <= i < j < |clients| ==> Low(clients[i]) != Low(clients[j])
  }

  predicate Configured(c: Config, t: Tuple)
    requires Sane(c)
  {
    t.cip in Clients(c) && Fits(ShapeOf(c), t)
  }

  /** Lookup finds exactly the socket a packet is meant for. */
  ghost predicate AgreesWithMap(tb: Table)
    requires tb.Built()
    reads tb.ht, tb.base
  {
    forall g: Packet, k: nat :: tb.Lookup(g) == Some(k) <==> (k < tb.base.Length && tb.base[k] == MeantFor(g))
  }

  /** A tuple is held by some socket if and only if it is configured. */
  lemma ConfiguredIsHeld(tb: Table, t: Tuple)
    requires tb.Built()
    ensures Configured(tb.cfg, t) <==> exists k :: 0 <= k < tb.base.Length && tb.base[k] == SlotOf(tb.cfg.server, t)
  {
    hide Spot, Which, Index, Size, TupleAt;
    var sh, clients := ShapeOf(tb.cfg), Clients(tb.cfg);
    if Configured(tb.cfg, t) {
      var i :| 0 <= i < |clients| && clients[i] == t.cip;
      TupleAtIndex(sh, clients, i, t);
      var k: nat := Spot(sh, i, t);
      assert tb.base[k] == SlotOf(tb.cfg.server, t);
    }
    forall k | 0 <= k < tb.base.Length && tb.base[k] == SlotOf(tb.cfg.server, t) ensures Configured(tb.cfg, t) {
      IndexOfTupleAt(sh, clients, k);
      assert TupleAt(sh, clients, k) == t;
    }
  }

  /** With distinct low halves no two sockets hold the same tuple. */
  lemma HeldOnce(tb: Table, j: nat, k: nat)
    requires tb.Built() && DistinctLow(Clients(tb.cfg)) && j < tb.base.Length && k < tb.base.Length
    requires tb.base[j] == tb.base[k]
    ensures j == k
  {
    hide Spot, Which, Index, Size, TupleAt;
    var sh, clients := ShapeOf(tb.cfg), Clients(tb.cfg);
    IndexOfTupleAt(sh, clients, j);
    IndexOfTupleAt(sh, clients, k);
    assert TupleAt(sh, clients, j) == TupleAt(sh, clients, k);
    assert Which(sh, j) == Which(sh, k);
  }

  /** The table is the plain map from packets to sockets if and only if the client
      addresses differ in their low halves. */
  lemma LookupIsTheMap(tb: Table)
    requires tb.Built()
    ensures AgreesWithMap(tb) <==> DistinctLow(Clients(tb.cfg))
  {
    var clients := Clients(tb.cfg);
    if DistinctLow(clients) {
      forall g: Packet, k: nat ensures tb.Lookup(g) == Some(k) <==> (k < tb.base.Length && tb.base[k] == MeantFor(g)) {
        LookupExact(tb, g, k);
      }
    } else {
      var i, j :| 0 <= i < j < |clients| && Low(clients[i]) == Low(clients[j]);
      LookupShadowed(tb, i, j);
    }
  }

  lemma LookupExact(tb: Table, g: Packet, k: nat)
    requires tb.Built() && DistinctLow(Clients(tb.cfg))
    ensures tb.Lookup(g) == Some(k) <==> (k < tb.base.Length && tb.base[k] == MeantFor(g))
  {
    hide Spot, Which, Index, Size, TupleAt;
    var sh, clients, t := ShapeOf(tb.cfg), Clients(tb.cfg), TupleOf(tb.cfg.server, g);
    assert SlotOf(tb.cfg.server, t) == MeantFor(g);
    LookupInBounds(tb, t);
    if k < tb.base.Length && tb.base[k] == SlotOf(tb.cfg.server, t) {
      IndexOfTupleAt(sh, clients, k);
      assert TupleAt(sh, clients, k) == t;
      var i := Which(sh, k);
      assert Low(clients[i]) == Low(t.cip);
      assert tb.CommonLookup(t).Some?;
      var last: nat :| Found(tb, t, last, tb.CommonLookup(t).id);
      assert last == i;
    }
  }

  /** Of two client addresses with the same low half the earlier one is lost. */
  lemma LookupShadowed(tb: Table, i: nat, j: nat)
    requires tb.Built() && i < j < |Clients(tb.cfg)| && Low(Clients(tb.cfg)[i]) == Low(Clients(tb.cfg)[j])
    ensures !AgreesWithMap(tb)
  {
    hide Spot, Which, Index, Size, TupleAt, Last, Table.PortTableGet;
    var sh, clients := ShapeOf(tb.cfg), Clients(tb.cfg);
    var t := Tuple(clients[i], sh.cportMin, sh.ipMin, sh.portMin);
    TupleAtIndex(sh, clients, i, t);
    var k: nat := Spot(sh, i, t);
    assert tb.base[k] == SlotOf(tb.cfg.server, t);
    var g := if tb.cfg.server then Packet(t.cip, t.sip, t.cport, t.sport) else Packet(t.sip, t.cip, t.sport, t.cport);
    assert TupleOf(tb.cfg.server, g) == t && MeantFor(g) == SlotOf(tb.cfg.server, t);
    if tb.Lookup(g) == Some(k) {
      LookupInBounds(tb, t);
      var last: nat :| Found(tb, t, last, k);
      TupleAtIndex(sh, clients, last, t.(cip := clients[last]));
      LastIsLast(clients, |clients|, j);
    }
  }

  lemma {:induction false} LastIsLast(clients: seq<nat>, n: nat, j: nat)
    requires j < n <= |clients|
    ensures Last(clients, n, Low(clients[j])).Some? && Last(clients, n, Low(clients[j])).id >= j
    decreases n
  {
    if Low(clients[n - 1]) != Low(clients[j]) { LastIsLast(clients, n - 1, j); }
  }

  // ---------------------------------------------------------------- the configuration check

  /** config_check_client_addr. The last byte of an address is never 255, so a
      marker for each low half but 0xffff is enough. */
  method CheckClientAddr(group: seq<seq<nat>>) returns (ok: bool)
    requires forall a :: a in Flatten(group) ==> a % 256 != 255
    ensures ok <==> DistinctLow(Flatten(group))
  {
    var marker := new bool[0xffff](_ => false);
    ok := true;
    var r := 0;
    assert group[..0] == [];
    while r < |group| && ok
      invariant r <= |group|
      invariant ok ==> Marks(marker[..], Flatten(group[..r])) && DistinctLow(Flatten(group[..r]))
      invariant !ok ==> !DistinctLow(Flatten(group))
    {
      FlattenMore(group, r);
      FlattenPrefix(group, r + 1);
      ok := CheckRange(marker, Flatten(group), Flatten(group[..r]), group[r]);
      r := r + 1;
    }
    assert ok ==> group[..r] == group;
  }

  method CheckRange(marker: array<bool>, ghost all: seq<nat>, ghost done: seq<nat>, range: seq<nat>) returns (ok: bool)
    requires Marks(marker[..], done) && DistinctLow(done) && done + range <= all
    requires forall a :: a in all ==> a % 256 != 255
    modifies marker
    ensures if ok then Marks(marker[..], done + range) && DistinctLow(done + range) else !DistinctLow(all)
  {
    var i := 0;
    assert done + range[..0] == done;
    while i < |range|
      invariant i <= |range| && Marks(marker[..], done + range[..i]) && DistinctLow(done + range[..i])
    {
      ghost var before := done + range[..i];
      OneMore(done, range, i, all);
      var low := Low(range[i]);
      LowByte(range[i]);
      MarkedMeans(marker[..], before, low);
      hide Marks, DistinctLow;
      if marker[low] {
        Doubled(all, before, range[i]);
        return false;
      }
      ghost var was := marker[..];
      marker[low] := true;
      Marked(was, marker[..], before, range[i]);
      i := i + 1;
    }
    assert range[..i] == range;
    return true;
  }

  ghost predicate Marks(marker: seq<bool>, seen: seq<nat>) {
    && |marker| == 0xffff
    && (forall i :: 0 <= i < |seen| ==> Low(seen[i]) < 0xffff && marker[Low(seen[i])])
    && forall x :: 0 <= x < |marker| && marker[x] ==> exists i :: 0 <= i < |seen| && Low(seen[i]) == x
  }

  lemma OneMore(done: seq<nat>, range: seq<nat>, i: nat, all: seq<nat>)
    requires i < |range| && done + range <= all
    ensures done + range[..i + 1] == done + range[..i] + [range[i]] <= all && range[i] in all
  {
    assert (done + range)[..|done| + i + 1] == done + range[..i + 1];
    assert all[|done| + i] == (done + range)[|done| + i];
  }

  lemma MarkedMeans(marker: seq<bool>, seen: seq<nat>, x: nat)
    requires Marks(marker, seen) && x < 0xffff
    ensures |marker| == 0xffff && (marker[x] ==> exists i :: 0 <= i < |seen| && Low(seen[i]) == x)
  {
  }

  lemma Marked(marker: seq<bool>, marker': seq<bool>, seen: seq<nat>, a: nat)
    requires Marks(marker, seen) && DistinctLow(seen) && Low(a) < 0xffff && !marker[Low(a)]
    requires marker' == marker[Low(a) := true]
    ensures Marks(marker', seen + [a]) && DistinctLow(seen + [a])
  {
    var seen' := seen + [a];
    assert seen'[|seen|] == a;
    forall x | 0 <= x < |marker'| && marker'[x] ensures exists i :: 0 <= i < |seen'| && Low(seen'[i]) == x {
      if x != Low(a) {
        var i :| 0 <= i < |seen| && Low(seen[i]) == x;
        assert Low(seen'[i]) == x;
      }
    }
  }

  lemma LowByte(a: nat)
    requires a % 256 != 255
    ensures Low(a) < 0xffff
  {
  }

  lemma Doubled(all: seq<nat>, before: seq<nat>, a: nat)
    requires before + [a] <= all && exists i :: 0 <= i < |before| && Low(before[i]) == Low(a)
    ensures !DistinctLow(all)
  {
    var i :| 0 <= i < |before| && Low(before[i]) == Low(a);
    assert (before + [a])[i] == all[i] && (before + [a])[|before|] == all[|before|];
  }
}
