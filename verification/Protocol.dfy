/** The stop-and-wait conversation of one client and one server socket, as
    abstract steps over a network that keeps every segment ever sent (so it may
    lose, repeat and reorder at will). Connection.dfy proves that the handlers
    only make these steps. */
module Protocol {
  import opened Tcp

  /** What the conversation depends on in a socket. */
  datatype Peer = Peer(state: State, una: int, nxt: int, rcv: int, flags: Flags, keepalive: bool)

  datatype Link = Link(
    c: Peer, s: Peer,
    c2s: set<Segment>, s2c: set<Segment>,      // ever sent
    launched: bool, greeted: bool, joined: bool, // SYN sent, SYN taken, SYN-ACK taken
    cFin: bool,                                 // the client has sent a FIN
    issued: seq<int>, accepted: seq<int>,       // requests: first sent, taken by the server
    answered: seq<int>, received: seq<int>)     // responses: first sent, taken by the client

  /** Payload sizes of the two sides. */
  datatype Sizes = Sizes(req: nat, rsp: nat)

  function Len(size: nat, f: Flags): nat { if f.push then size else 0 }

  /** The segment a retransmission sends. */
  function Again(size: nat, e: Peer): Segment { Segment(e.una, e.rcv, e.flags, Len(size, e.flags)) }

  function Log(log: seq<int>, x: int): seq<int> { if x in log then log else log + [x] }

  // ---------------------------------------------------------------- invariant

  /** One direction: everything in flight starts at or before snd_una, and what
      starts there is empty or fills exactly snd_una..snd_nxt. */
  ghost predicate Flight(e: Peer, out: set<Segment>) {
    && e.una <= e.nxt
    && forall g :: g in out ==> g.seqno <= e.una && (g.seqno == e.una ==> g.Span() == 0 || g.Span() == e.nxt - e.una)
  }

  ghost predicate Handshake(l: Link) {
    && l.issued == l.accepted == l.answered == l.received == [] && !l.cFin
    && (!l.launched ==> l.c.state == Closed && l.c2s == {} && !l.greeted)
    && (l.launched ==>
          && l.c.state in {SynSent, Closed} && l.c.nxt == l.c.una + 1 && l.c.flags == SYN
          && forall g :: g in l.c2s ==> g == Segment(l.c.una, 0, SYN, 0))
    && (l.launched ==> l.c.rcv == 0)
    && (!l.greeted ==> l.s.state == Closed && l.s2c == {})
    && (l.greeted ==>
          && l.s.state in {SynReceived, Closed} && l.s.rcv == l.c.nxt && l.s.nxt == l.s.una + 1 && l.s.flags == SYN_ACK
          && forall g :: g in l.s2c ==> g == Segment(l.s.una, l.s.rcv, SYN_ACK, 0))
  }

  ghost predicate ClientSegments(z: Sizes, l: Link) {
    && Flight(l.c, l.c2s)
    && forall g :: g in l.c2s ==>
         && (g.flags.syn ==> g.flags == SYN)
         && (!g.flags.syn ==> g.ack <= l.c.rcv)
         && (g.flags.rst ==> l.c.state == Closed && !l.cFin)
         && (g.len > 0 ==> g.flags == PUSH_ACK && (l.cFin ==> g.seqno < l.c.una))
         && (g.flags.fin ==>
             g.len == 0 && l.cFin && g.seqno + 1 == l.c.nxt && (l.s.state == FinWait1 ==> g.ack == l.s.nxt))
  }

  ghost predicate ServerSegments(z: Sizes, l: Link) {
    && Flight(l.s, l.s2c)
    && forall g :: g in l.s2c ==>
         && (g.flags.syn ==> g.flags == SYN_ACK && g.ack < l.c.nxt)
         && g.ack <= l.s.rcv && !g.flags.rst
         && (!g.flags.syn && g.len == 0 ==> l.cFin && (g.flags.fin ==> g.ack == l.c.nxt))
         && (g.len > 0 ==> g.flags == ResponseFlags(l.s))
  }

  /** What the two sockets may look like, and what they would retransmit. */
  ghost predicate ClientEnd(z: Sizes, l: Link) {
    && l.c.state in {Established, FinWait1, FinWait2, LastAck, Closed}
    && (l.c.state in {FinWait1, FinWait2, LastAck} ==> l.cFin)
    && (l.c.state == Established ==> !l.cFin)
    && (l.c.una < l.c.nxt ==>
          if l.cFin then l.c.nxt == l.c.una + 1 && l.c.flags in {FIN_ACK, ACK}
          else l.c.nxt == l.c.una + z.req && l.c.flags in {PUSH_ACK, ACK})
    && (l.cFin ==> l.c.flags in {FIN_ACK, ACK})
  }

  ghost predicate ServerEnd(z: Sizes, l: Link) {
    && l.s.state in {SynReceived, Established, FinWait1, FinWait2, LastAck, Closed}
    && (l.s.state == SynReceived ==> l.s.flags == SYN_ACK && l.s.una < l.s.nxt)
    && (l.s.state == LastAck ==> l.cFin)
    && (l.s.state in {FinWait1, FinWait2} ==> !l.s.keepalive)
    && (l.s.state == FinWait1 && l.cFin ==> l.c.rcv == l.s.nxt)
    && (!l.s.keepalive ==> !l.c.keepalive)
    && (l.s.flags == SYN_ACK || l.s.flags == FIN_ACK || l.s.flags == ACK
        || l.s.flags == ResponseFlags(l.s))
    && (l.s.flags in {FIN_ACK, ACK} ==> l.cFin && l.s.rcv == l.c.nxt)
    && (l.s.una < l.s.nxt && l.s.flags != ACK ==> Again(z.rsp, l.s).Span() == l.s.nxt - l.s.una)
    && (l.s.una < l.s.nxt && l.s.flags == SYN_ACK ==> l.s.rcv < l.c.nxt)
    && (l.s.una < l.s.nxt && l.s.flags.push ==> l.s.una in l.answered)
  }

  /** The two cursors of each direction. */
  ghost predicate Agreed(l: Link) {
    && (l.s.rcv == l.c.una || l.s.rcv == l.c.nxt)
    && (l.c.rcv == l.s.una || l.c.rcv == l.s.nxt)
  }

  ghost predicate Waiting(l: Link) { !l.cFin && l.c.una < l.c.nxt }

  function ResponseFlags(s: Peer): Flags { if s.keepalive then PUSH_ACK else PUSH_ACK_FIN }

  /** The four logs against the cursors; the outstanding request, and then its
      response, stay on the network. */
  ghost predicate Exchange(z: Sizes, l: Link) {
    && (forall x :: x in l.issued ==> x < l.c.nxt)
    && (forall x :: x in l.answered ==> x < l.s.nxt)
    && |l.answered| == |l.accepted|
    && |l.received| <= |l.accepted| <= |l.issued|
    && l.accepted == l.issued[..|l.accepted|]
    && l.received == l.answered[..|l.received|]
    && (if Waiting(l) then
          && |l.issued| == |l.received| + 1
          && l.issued[|l.received|] == l.c.una
          && Segment(l.c.una, l.c.rcv, PUSH_ACK, z.req) in l.c2s
          && (if l.s.rcv == l.c.una
              then |l.accepted| == |l.received| && l.c.rcv == l.s.nxt && l.s.state in {SynReceived, Established, Closed}
              else
                && |l.accepted| == |l.issued| && l.c.rcv == l.s.una < l.s.nxt && l.answered[|l.received|] == l.s.una
                && Segment(l.s.una, l.s.rcv, ResponseFlags(l.s), z.rsp) in l.s2c)
        else
          && |l.issued| == |l.received|
          && (!l.cFin ==> l.s.rcv == l.c.nxt && l.c.rcv == l.s.nxt))
  }

  /** The two ends once the client has sent its FIN: what each has taken, and that the segments
      that bring the connection to its end stay on the network. A server with keepalive
      answers the FIN with its own; one without has sent its own before. */
  ghost predicate Closing(z: Sizes, l: Link) {
    && l.issued != []
    && (!l.s.keepalive && l.accepted != [] ==> l.s.state in {FinWait1, FinWait2, Closed})
    && (forall g :: g in l.s2c && g.len > 0 && l.cFin && l.s.rcv == l.c.nxt ==> g.ack < l.c.nxt)
    && (l.cFin ==>
          && l.c.state in (if l.s.keepalive then {FinWait1, FinWait2, Closed} else {LastAck, Closed})
          && (if l.s.rcv < l.c.nxt then
                && l.s.rcv == l.c.una == l.c.nxt - 1 && l.c.rcv == l.s.nxt && l.s.state != LastAck
                && Segment(l.c.una, l.c.rcv, FIN_ACK, 0) in l.c2s
              else if l.s.keepalive then
                && !l.s.flags.push && l.s.state in {LastAck, Closed}
                    && Segment(l.s.nxt - 1, l.c.nxt, FIN_ACK, 0) in l.s2c
                && l.c.rcv >= l.s.nxt - 1
                && (l.c.rcv == l.s.nxt ==> l.c.state == Closed && Segment(l.c.nxt, l.s.nxt, ACK, 0) in l.c2s)
              else
                !l.s.flags.push && l.s.state == Closed && l.c.rcv == l.s.nxt
                    && Segment(l.s.nxt, l.c.nxt, ACK, 0) in l.s2c))
  }

  ghost predicate Inv(z: Sizes, l: Link) {
    && z.req > 0 && z.rsp > 0
    && (!l.s.keepalive ==> !l.c.keepalive)
    && (if !l.joined then Handshake(l)
        else
          && l.launched && l.greeted
          && ClientSegments(z, l) && ServerSegments(z, l)
          && ClientEnd(z, l) && ServerEnd(z, l)
          && Agreed(l) && Exchange(z, l) && Closing(z, l))
  }

  // ---------------------------------------------------------------- steps of the client

  /** A socket is closed; its numbers stay. */
  function CClose(l: Link): Link { l.(c := l.c.(state := Closed)) }

  function CKeepaliveOff(l: Link): Link { l.(c := l.c.(keepalive := false)) }

  function CResend(z: Sizes, l: Link): Link
  {
    var g := Again(z.req, l.c);
    l.(c2s := l.c2s + {g}, issued := if g.len > 0 then Log(l.issued, g.seqno) else l.issued)
  }

  function CLaunch(l: Link, iss: int, keepalive: bool): Link {
    l.(c := Peer(SynSent, iss, iss + 1, 0, SYN, keepalive), c2s := l.c2s + {Segment(iss, 0, SYN, 0)}, launched := true)
  }

  /** The SYN-ACK is taken and the first request leaves. */
  function CJoin(z: Sizes, l: Link, g: Segment): Link {
    var c := Peer(Established, l.c.nxt, l.c.nxt + z.req, g.seqno + 1, PUSH_ACK, l.c.keepalive);
    l.(c := c, joined := true, c2s := l.c2s + {Again(z.req, c)}, issued := Log(l.issued, c.una))
  }

  function CTake(l: Link, g: Segment): Link {
    l.(c := l.c.(una := l.c.nxt, rcv := l.c.rcv + g.Span()), received := l.received + [g.seqno])
  }

  function CAck(l: Link): Link {
    l.(c := l.c.(flags := ACK), c2s := l.c2s + {Segment(l.c.una, l.c.rcv, ACK, 0)})
  }

  function CReset(l: Link): Link {
    l.(c := l.c.(flags := RST_ACK, state := Closed), c2s := l.c2s + {Segment(l.c.una, l.c.rcv, RST_ACK, 0)})
  }

  function CRequest(z: Sizes, l: Link): Link {
    var c := l.c.(nxt := l.c.una + z.req, flags := PUSH_ACK);
    l.(c := c, c2s := l.c2s + {Again(z.req, c)}, issued := Log(l.issued, c.una))
  }

  function CFinish(l: Link, state: State): Link {
    var c := l.c.(nxt := l.c.una + 1, flags := FIN_ACK, state := state);
    l.(c := c, c2s := l.c2s + {Segment(c.una, c.rcv, FIN_ACK, 0)}, cFin := true)
  }

  /** A segment taken after the client's own FIN: the last acknowledgement, the server's FIN,
      which is acknowledged, or neither. */
  function CLate(l: Link, g: Segment): Link {
    var c := l.c.(una := l.c.nxt, rcv := l.c.rcv + g.Span());
    if l.c.state == LastAck then l.(c := c.(state := Closed))
    else if g.flags.fin then
      l.(c := c.(state := Closed, flags := ACK), c2s := l.c2s + {Segment(c.una, c.rcv, ACK, 0)})
    else l.(c := c.(state := FinWait2))
  }

  // ---------------------------------------------------------------- steps of the server

  function SClose(l: Link): Link { l.(s := l.s.(state := Closed)) }

  function SResend(z: Sizes, l: Link): Link {
    var g := Again(z.rsp, l.s);
    l.(s2c := l.s2c + {g}, answered := if g.len > 0 then Log(l.answered, g.seqno) else l.answered)
  }

  function SOpen(l: Link, g: Segment, iss: int): Link {
    var s := Peer(SynReceived, iss, iss + 1, g.seqno + 1, SYN_ACK, l.s.keepalive);
    l.(s := s, s2c := l.s2c + {Segment(s.una, s.rcv, SYN_ACK, 0)}, greeted := true)
  }

  /** A request is taken and its response leaves. */
  function SServe(z: Sizes, l: Link, g: Segment): Link {
    var f := ResponseFlags(l.s);
    var una := l.s.nxt;
    var s := l.s.(state := if l.s.keepalive then Established else FinWait1, una := una, rcv := l.s.rcv + g.Span(),
                  nxt := una + z.rsp + (if l.s.keepalive then 0 else 1), flags := f);
    l.(s := s, s2c := l.s2c + {Again(z.rsp, s)}, accepted := l.accepted + [g.seqno], answered := Log(l.answered, una))
  }

  /** An empty segment taken before any FIN. */
  function SAccept(l: Link): Link { l.(s := l.s.(state := Established, una := l.s.nxt)) }

  /** The client's FIN is taken and answered with a FIN. */
  function SFinAck(l: Link, g: Segment): Link {
    var una := l.s.nxt;
    var s := l.s.(state := LastAck, una := una, rcv := l.s.rcv + g.Span(), nxt := una + 1, flags := FIN_ACK);
    l.(s := s, s2c := l.s2c + {Segment(s.una, s.rcv, FIN_ACK, 0)})
  }

  /** A segment taken after the server's own FIN: the last acknowledgement, the client's FIN,
      which is acknowledged, or neither. */
  function SLate(l: Link, g: Segment): Link {
    var s := l.s.(una := l.s.nxt, rcv := l.s.rcv + g.Span());
    if l.s.state == LastAck then l.(s := s.(state := Closed))
    else if g.flags.fin then
      l.(s := s.(state := Closed, flags := ACK), s2c := l.s2c + {Segment(s.una, s.rcv, ACK, 0)})
    else l.(s := s.(state := FinWait2))
  }

  // ---------------------------------------------------------------- preservation

  lemma CCloseKeeps(z: Sizes, l: Link)
    requires Inv(z, l)
    ensures Inv(z, CClose(l))
  {
  }

  lemma SCloseKeeps(z: Sizes, l: Link)
    requires Inv(z, l)
    ensures Inv(z, SClose(l))
  {
  }

  lemma CKeepaliveOffKeeps(z: Sizes, l: Link)
    requires Inv(z, l)
    ensures Inv(z, CKeepaliveOff(l))
  {
  }

  lemma CResendKeeps(z: Sizes, l: Link)
    requires Inv(z, l) && l.launched && l.c.una != l.c.nxt
    ensures Inv(z, CResend(z, l))
  {
    if l.joined && l.c.flags.push { assert l.issued[|l.received|] == l.c.una; }
  }

  lemma CLaunchKeeps(z: Sizes, l: Link, iss: int, keepalive: bool)
    requires Inv(z, l) && !l.launched && (!l.s.keepalive ==> !keepalive)
    ensures Inv(z, CLaunch(l, iss, keepalive))
  {
  }

  lemma CJoinKeeps(z: Sizes, l: Link, g: Segment)
    requires Inv(z, l) && l.c.state == SynSent && g in l.s2c && g.flags == SYN_ACK
    ensures Inv(z, CJoin(z, l, g))
  {
  }

  /** What a client that awaits a response can take: only the one response. */
  lemma OnlyResponse(z: Sizes, l: Link, g: Segment)
    requires Inv(z, l) && l.joined && !l.cFin && g in l.s2c && !g.flags.syn
    requires g.ack == l.c.nxt && g.seqno == l.c.rcv
    ensures Waiting(l) && l.s.rcv == l.c.nxt && g.len > 0 && g.Span() == l.s.nxt - l.s.una
    ensures g.seqno == l.answered[|l.received|]
    ensures g.flags.fin <==> !l.s.keepalive
  {
  }

  lemma CTakeKeeps(z: Sizes, l: Link, g: Segment)
    requires Inv(z, l) && l.joined && !l.cFin && g in l.s2c && !g.flags.syn
    requires g.ack == l.c.nxt && g.seqno == l.c.rcv
    ensures Inv(z, CTake(l, g)) && !Waiting(CTake(l, g))
  {
    OnlyResponse(z, l, g);
    assert l.answered[..|l.received| + 1] == l.received + [g.seqno];
  }

  lemma CAckKeeps(z: Sizes, l: Link)
    requires Inv(z, l) && l.joined
    ensures Inv(z, CAck(l))
  {
  }

  lemma CResetKeeps(z: Sizes, l: Link)
    requires Inv(z, l) && l.joined && !l.cFin && l.c.una == l.c.nxt
    ensures Inv(z, CReset(l))
  {
  }

  lemma CRequestKeeps(z: Sizes, l: Link)
    requires Inv(z, l) && l.joined && l.c.state == Established && l.c.una == l.c.nxt && l.c.keepalive
    ensures Inv(z, CRequest(z, l))
  {
  }

  lemma CFinishKeeps(z: Sizes, l: Link, state: State)
    requires Inv(z, l) && l.joined && l.c.state == Established && l.c.una == l.c.nxt
    requires state in (if l.s.keepalive then {FinWait1, FinWait2} else {LastAck})
    ensures Inv(z, CFinish(l, state))
  {
  }

  /** The client takes a segment behind its own FIN. */
  ghost predicate LateAtClient(z: Sizes, l: Link, g: Segment) {
    && Inv(z, l) && l.joined && l.cFin && g in l.s2c && !g.flags.syn
    && g.ack == l.c.nxt && g.seqno == l.c.rcv && l.c.state in {FinWait1, FinWait2, LastAck}
  }

  lemma CLateFlights(z: Sizes, l: Link, g: Segment)
    requires LateAtClient(z, l, g)
    ensures ClientSegments(z, CLate(l, g)) && ServerSegments(z, CLate(l, g)) && Agreed(CLate(l, g))
  {
    hide Exchange;
  }

  lemma CLateEnds(z: Sizes, l: Link, g: Segment)
    requires LateAtClient(z, l, g)
    ensures ClientEnd(z, CLate(l, g)) && ServerEnd(z, CLate(l, g)) && Exchange(z, CLate(l, g))
  {
  }

  lemma CLateCloses(z: Sizes, l: Link, g: Segment)
    requires LateAtClient(z, l, g)
    ensures Closing(z, CLate(l, g))
  {
    hide Exchange;
  }

  lemma CLateKeeps(z: Sizes, l: Link, g: Segment)
    requires Inv(z, l) && l.joined && l.cFin && g in l.s2c && !g.flags.syn
    requires g.ack == l.c.nxt && g.seqno == l.c.rcv
    requires l.c.state in {FinWait1, FinWait2, LastAck}
    ensures Inv(z, CLate(l, g))
  {
    CLateFlights(z, l, g);
    CLateEnds(z, l, g);
    CLateCloses(z, l, g);
    hide ClientSegments, ServerSegments, ClientEnd, ServerEnd, Agreed, Exchange, Closing;
  }

  lemma SResendFlights(z: Sizes, l: Link)
    requires Inv(z, l) && l.joined && l.s.una != l.s.nxt
    ensures ClientSegments(z, SResend(z, l)) && ServerSegments(z, SResend(z, l)) && Closing(z, SResend(z, l))
  {
    hide Exchange;
  }

  lemma SResendRest(z: Sizes, l: Link)
    requires Inv(z, l) && l.greeted && l.s.una != l.s.nxt
    ensures if l.joined then
              && ClientEnd(z, SResend(z, l)) && ServerEnd(z, SResend(z, l)) && Agreed(SResend(z, l))
              && Exchange(z, SResend(z, l))
            else Handshake(SResend(z, l))
  {
  }

  lemma SResendKeeps(z: Sizes, l: Link)
    requires Inv(z, l) && l.greeted && l.s.una != l.s.nxt
    ensures Inv(z, SResend(z, l))
  {
    SResendRest(z, l);
    if l.joined { SResendFlights(z, l); }
    hide ClientSegments, ServerSegments, ClientEnd, ServerEnd, Agreed, Exchange, Closing, Handshake;
  }

  lemma SOpenKeeps(z: Sizes, l: Link, g: Segment, iss: int)
    requires Inv(z, l) && !l.greeted && g in l.c2s && g.flags == SYN
    ensures Inv(z, SOpen(l, g, iss))
  {
  }

  /** A request the server can take is the one the client is waiting on. */
  lemma OnlyRequest(z: Sizes, l: Link, g: Segment)
    requires Inv(z, l) && l.joined && g in l.c2s && g.flags != SYN
    requires g.ack == l.s.nxt && g.seqno == l.s.rcv && g.len > 0
    ensures Waiting(l) && l.s.rcv == l.c.una && l.s.state in {SynReceived, Established, Closed}
    ensures g.Span() == l.c.nxt - l.c.una && g.seqno == l.issued[|l.received|] && !g.flags.fin
  {
  }

  /** The server can take a request. */
  ghost predicate AskedFor(z: Sizes, l: Link, g: Segment) {
    && Inv(z, l) && l.joined && g in l.c2s && g.flags != SYN
    && g.ack == l.s.nxt && g.seqno == l.s.rcv && g.len > 0 && l.s.state != Closed
  }

  lemma SServeFlights(z: Sizes, l: Link, g: Segment)
    requires AskedFor(z, l, g)
    ensures ClientSegments(z, SServe(z, l, g)) && ServerSegments(z, SServe(z, l, g)) && Agreed(SServe(z, l, g))
  {
    OnlyRequest(z, l, g);
    hide Exchange, Closing;
  }

  lemma SServeEnds(z: Sizes, l: Link, g: Segment)
    requires AskedFor(z, l, g)
    ensures ClientEnd(z, SServe(z, l, g)) && ServerEnd(z, SServe(z, l, g)) && Closing(z, SServe(z, l, g))
  {
    OnlyRequest(z, l, g);
  }

  lemma SServeExchange(z: Sizes, l: Link, g: Segment)
    requires AskedFor(z, l, g)
    ensures Exchange(z, SServe(z, l, g))
  {
    OnlyRequest(z, l, g);
    assert l.issued[..|l.received| + 1] == l.issued;
    assert l.issued == l.accepted + [g.seqno];
    hide Closing, ServerEnd, ClientEnd;
  }

  lemma SServeKeeps(z: Sizes, l: Link, g: Segment)
    requires Inv(z, l) && l.joined && g in l.c2s && g.flags != SYN
    requires g.ack == l.s.nxt && g.seqno == l.s.rcv && g.len > 0 && l.s.state != Closed
    ensures Inv(z, SServe(z, l, g))
  {
    SServeFlights(z, l, g);
    SServeEnds(z, l, g);
    SServeExchange(z, l, g);
    hide ClientSegments, ServerSegments, ClientEnd, ServerEnd, Agreed, Exchange, Closing;
  }

  lemma SAcceptKeeps(z: Sizes, l: Link, g: Segment)
    requires Inv(z, l) && l.joined && g in l.c2s && g.flags != SYN
    requires g.ack == l.s.nxt && g.seqno == l.s.rcv && g.Span() == 0 && l.s.state in {SynReceived, Established}
    ensures Inv(z, SAccept(l))
  {
  }

  lemma SFinAckKeeps(z: Sizes, l: Link, g: Segment)
    requires Inv(z, l) && l.joined && g in l.c2s && g.flags != SYN
    requires g.ack == l.s.nxt && g.seqno == l.s.rcv && g.flags.fin && l.s.state in {SynReceived, Established}
    ensures Inv(z, SFinAck(l, g))
  {
  }

  /** The server takes a segment behind its own FIN. */
  ghost predicate LateAtServer(z: Sizes, l: Link, g: Segment) {
    && Inv(z, l) && l.joined && g in l.c2s && g.flags != SYN
    && g.ack == l.s.nxt && g.seqno == l.s.rcv && l.s.state in {FinWait1, FinWait2, LastAck}
  }

  lemma SLateFlights(z: Sizes, l: Link, g: Segment)
    requires LateAtServer(z, l, g)
    ensures ClientSegments(z, SLate(l, g)) && ServerSegments(z, SLate(l, g)) && Agreed(SLate(l, g))
  {
    hide Exchange;
  }

  lemma SLateEnds(z: Sizes, l: Link, g: Segment)
    requires LateAtServer(z, l, g)
    ensures ClientEnd(z, SLate(l, g)) && ServerEnd(z, SLate(l, g)) && Exchange(z, SLate(l, g))
  {
  }

  lemma SLateCloses(z: Sizes, l: Link, g: Segment)
    requires LateAtServer(z, l, g)
    ensures Closing(z, SLate(l, g))
  {
  }

  lemma SLateKeeps(z: Sizes, l: Link, g: Segment)
    requires Inv(z, l) && l.joined && g in l.c2s && g.flags != SYN
    requires g.ack == l.s.nxt && g.seqno == l.s.rcv && l.s.state in {FinWait1, FinWait2, LastAck}
    ensures Inv(z, SLate(l, g))
  {
    SLateFlights(z, l, g);
    SLateEnds(z, l, g);
    SLateCloses(z, l, g);
    hide ClientSegments, ServerSegments, ClientEnd, ServerEnd, Agreed, Exchange, Closing;
  }

  /** The branch for a simultaneous close cannot be entered from either side. */
  lemma NoSimultaneousClose(z: Sizes, l: Link, g: Segment)
    requires Inv(z, l) && l.joined && g.flags.fin && g.len == 0
    ensures g in l.c2s && l.s.state == FinWait1 && g.ack == l.s.una && g.seqno == l.s.rcv ==> g.ack == l.s.nxt
    ensures g in l.s2c && l.c.state == FinWait1 && g.ack == l.c.una && g.seqno == l.c.rcv ==> g.ack == l.c.nxt
  {
  }
}
