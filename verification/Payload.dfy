/** The response of a server: the configured size, the packet it is cut into, and
    when the two fit the windowed sender. */
module Payload {
  import opened Tcp
  import opened Window

  const Header := 85       // HTTP_DATA_MIN_SIZE: the response up to its body
  const DefaultBody := 14  // http_rsp_body_default
  const MaxSize := 0x4000_0000    // PAYLOAD_SIZE_MAX

  // ---------------------------------------------------------------- the configuration checks

  /** config_check_payload_size_num: either a size for every worker, or one for all. */
  method CheckPayloadSizeNum(sizes: array<nat>, cpus: nat, server: bool) returns (ok: bool)
    requires 0 < cpus <= sizes.Length
    modifies sizes
    ensures ok ==>
        (forall i :: 0 <= i < cpus ==> sizes[i] > 0 && sizes[i] == old(sizes[i])) ||
        (forall i :: 0 <= i < cpus ==> sizes[i] == old(sizes[0]))
    ensures ok && (exists i :: 0 <= i < cpus && sizes[i] > 0) ==> forall i :: 0 <= i < cpus ==> sizes[i] > 0
  {
    var num := 0;
    while num < sizes.Length && sizes[num] != 0
      invariant num <= sizes.Length && forall i :: 0 <= i < num ==> sizes[i] > 0
    {
      num := num + 1;
    }
    if num > 1 {
      return server && num == cpus;
    }
    var size := sizes[0];
    for i := 0 to cpus
      invariant forall j :: 0 <= j < i ==> sizes[j] == size
    {
      sizes[i] := size;
    }
    return true;
  }

  function RoundUp(size: nat, mss: nat): nat
    requires mss > 0
  {
    ((size + mss - 1) / mss) * mss
  }

  /** What config_check_payload_size makes of one TCP server worker's payload size. */
  function Rounded(size: nat, mss: nat): nat
    requires mss > 0
  {
    if size > mss then RoundUp(size, mss) else size
  }

  /** A size over one segment becomes the least number of whole packets that holds it. */
  lemma RoundedIs(size: nat, mss: nat)
    requires mss > 0
    ensures size > mss ==> Multiple(Rounded(size, mss), mss) && size <= Rounded(size, mss) < size + mss
    ensures Rounded(size, mss) == if size > mss then RoundUp(size, mss) else size
  {
    if size > mss { ProductMultiple((size + mss - 1) / mss, mss); }
  }

  /** config_check_payload_size. On a TCP server sizes over one segment are rounded in
      place, and there is a send window (in packets) exactly when some size is; anything
      else must fit one packet and has no window. */
  method CheckPayloadSize(sizes: array<nat>, cpus: nat, tcpServer: bool, mss: nat, packetSize: nat,
                          window: nat) returns (ok: bool, w: nat)
    requires mss > 0 && cpus <= sizes.Length
    modifies sizes
    ensures tcpServer ==> ok && forall i :: 0 <= i < cpus ==> sizes[i] == Rounded(old(sizes[i]), mss)
    ensures tcpServer ==> if exists i :: 0 <= i < cpus && old(sizes[i]) > mss
                          then w == if window == 0 then 4 else window
                          else w == 0
    ensures !tcpServer ==> (ok <==> forall i :: 0 <= i < cpus ==> sizes[i] <= packetSize)
    ensures !tcpServer ==> (ok ==> w == 0) && forall i :: 0 <= i < cpus ==> sizes[i] == old(sizes[i])
  {
    hide Rounded;
    var large := false;
    w := window;
    for i := 0 to cpus
      invariant tcpServer ==> forall j :: 0 <= j < cpus ==>
          sizes[j] == if j < i then Rounded(old(sizes[j]), mss) else old(sizes[j])
      invariant large <==> tcpServer && exists j :: 0 <= j < i && old(sizes[j]) > mss
      invariant w == if large && window == 0 then 4 else window
      invariant !tcpServer ==> forall j :: 0 <= j < cpus ==>
          sizes[j] == old(sizes[j]) && (j < i ==> sizes[j] <= packetSize)
    {
      var size := sizes[i];
      if tcpServer {
        RoundedIs(size, mss);
        if size > mss {
          sizes[i] := RoundUp(size, mss);
          if w == 0 { w := 4; }
          large := true;
        }
      } else if size > packetSize {
        return false, w;
      }
    }
    return true, if large then w else 0;
  }

  /** A payload that the checks leave on a worker with a send window: never 0. */
  predicate Sized(payload: nat, mss: nat)
    requires mss > 0
  {
    exists size: nat :: 0 < size <= MaxSize && payload == Rounded(size, mss)
  }

  /** config_check_payload without a payload file: a send window comes with whole sizes for all workers. */
  method CheckPayload(sizes: array<nat>, cpus: nat, server: bool, tcp: bool, mss: nat, packetSize: nat,
                      window: nat) returns (ok: bool, w: nat)
    requires mss > 0 && 0 < cpus <= sizes.Length && window <= 16
    requires forall i :: 0 <= i < sizes.Length ==> sizes[i] <= MaxSize
    modifies sizes
    ensures ok && w > 0 ==> server && tcp && w <= 16 && forall i :: 0 <= i < cpus ==> Sized(sizes[i], mss)
  {
    ok := CheckPayloadSizeNum(sizes, cpus, server);
    if !ok { return false, window; }
    ghost var given := sizes[..];
    ok, w := CheckPayloadSize(sizes, cpus, tcp && server, mss, packetSize, window);
    if ok && w > 0 {
      forall i | 0 <= i < cpus ensures Sized(sizes[i], mss) {
        assert 0 < given[i] <= MaxSize && sizes[i] == Rounded(given[i], mss);
      }
    }
  }

  // ---------------------------------------------------------------- the packet

  /** The length of the packet that http_set_payload_server prepares for a payload size. */
  function PacketLen(payload: nat, mss: nat): (n: nat)
    ensures n > 0
  {
    if payload == 0 then Header + DefaultBody
    else if payload < Header then payload
    else
      var pad: int := (if payload > mss then mss else payload) - Header;
      Header + if pad > 0 then pad else 0
  }

  /** A worker of a TCP server with a send window of `w` packets, as the checks configure it. */
  predicate Configured(cfg: Config, mss: nat, w: nat) {
    && cfg.server && !cfg.flood
    && 0 < mss < 0x1_0000 && 1 <= w <= 16
    && Sized(cfg.payload, mss) && cfg.dataLen == PacketLen(cfg.payload, mss) && cfg.sendWindow == mss * w
  }

  /** Packets as long as a segment may be, or one packet in all, or headers that happen to fill it. */
  predicate Fitting(payload: nat, mss: nat) {
    mss >= Header || payload < Header || payload % Header == 0
  }

  lemma WindowBound(mss: nat, w: nat)
    requires 0 < mss < 0x1_0000 && 1 <= w <= 16
    ensures 0 < mss * w <= 0x10_0000
  {
  }

  lemma WholePackets(payload: nat, mss: nat)
    requires mss > 0 && Sized(payload, mss)
    ensures 0 < payload < MaxSize + mss
    ensures Multiple(payload, PacketLen(payload, mss)) <==> Fitting(payload, mss)
  {
    var size: nat :| 0 < size <= MaxSize && payload == Rounded(size, mss);
    RoundedIs(size, mss);
    ProductMultiple(1, payload);
  }

  lemma ConfiguredIsWindowed(cfg: Config, mss: nat, w: nat)
    requires Configured(cfg, mss, w)
    ensures Windowed(cfg) && cfg.payload > 0
  {
    WholePackets(cfg.payload, mss);
    WindowBound(mss, w);
  }

  /** For every configured size the window invariant holds after a request, the first and
      any later one, if and only if the packets fit. */
  lemma RequestOpensIff(cfg: Config, mss: nat, w: nat, now: nat, st: St)
    requires Configured(cfg, mss, w)
    requires st.sk.state == Established && Ready(cfg, st.sk)
    ensures Win(cfg, ServeWindowed(cfg, now, st).sk) <==> Fitting(cfg.payload, mss)
  {
    hide ServeWindowed, Win, Multiple, Windowed;
    ConfiguredIsWindowed(cfg, mss, w);
    WholePackets(cfg.payload, mss);
    if st.sk.requests == 0 { FirstRequestOpens(cfg, now, st); } else { NextRequestOpens(cfg, now, st); }
  }

  /** A configuration that does not fit: segments of 80 bytes, shorter than the header. The
      size 150 becomes 160, which packets of 85 bytes do not fill, and no request opens the window. */
  lemma ShortSegmentsFail(cfg: Config, now: nat, st: St)
    requires cfg.server && !cfg.flood && cfg.payload == Rounded(150, 80) && cfg.dataLen == PacketLen(cfg.payload, 80)
    requires cfg.sendWindow == 80 * 4
    requires st.sk.state == Established && Ready(cfg, st.sk)
    ensures cfg.payload == 160 && cfg.dataLen == 85 && !Win(cfg, ServeWindowed(cfg, now, st).sk)
  {
    hide ServeWindowed, Win;
    RequestOpensIff(cfg, 80, 4, now, st);
  }
}
