/** Incremental ones'-complement checksums against the sums they stand for
    (section 3 of RFC 1624), fields in host order. */
module Checksum {
  import opened Tcp

  const Ones := 0xffff

  type word = x: int | 0 <= x <= 0xffff

  // ---------------------------------------------------------------- from scratch

  /** Addition with the carry brought round. */
  function OnesAdd(a: word, b: word): word {
    if a + b > Ones then a + b - Ones else a + b
  }

  function OnesSum(ws: seq<word>): word {
    if ws == [] then 0 else OnesAdd(ws[0], OnesSum(ws[1..]))
  }

  function Sum(ws: seq<word>): nat {
    if ws == [] then 0 else ws[0] + Sum(ws[1..])
  }

  /** The checksum of words whose own checksum field is not among them. */
  function Scratch(ws: seq<word>): word { Ones - OnesSum(ws) }

  /** What a receiver checks: words and checksum add up to all ones. */
  predicate Accepted(ws: seq<word>, sum: word) { OnesAdd(OnesSum(ws), sum) == Ones }

  /** The plain sum reduced to a word; zero only for zero. */
  function Reduce(n: nat): word {
    if n == 0 then 0 else 1 + (n - 1) % Ones
  }

  lemma ReduceAdds(a: word, n: nat)
    ensures OnesAdd(a, Reduce(n)) == Reduce(a + n)
  {
  }

  lemma {:induction false} OnesSumIs(ws: seq<word>)
    ensures OnesSum(ws) == Reduce(Sum(ws))
  {
    if ws != [] {
      OnesSumIs(ws[1..]);
      ReduceAdds(ws[0], Sum(ws[1..]));
    }
  }

  lemma {:induction false} SumJoins(a: seq<word>, b: seq<word>)
    ensures Sum(a + b) == Sum(a) + Sum(b)
  {
    if a == [] {
      assert a + b == b;
    } else {
      assert (a + b)[1..] == a[1..] + b;
      SumJoins(a[1..], b);
    }
  }

  lemma SumSet(ws: seq<word>, i: nat, x: word)
    requires i < |ws|
    ensures Sum(ws[i := x]) == Sum(ws) - ws[i] + x
  {
    SumJoins(ws[..i], ws[i..]);
    SumJoins(ws[..i], [x] + ws[i + 1..]);
    assert ws[..i] + ws[i..] == ws;
    assert ws[..i] + ([x] + ws[i + 1..]) == ws[i := x];
    assert ([x] + ws[i + 1..])[1..] == ws[i + 1..] && ws[i..][1..] == ws[i + 1..];
  }

  /** A checksum is accepted when it complements the sum modulo 0xffff and they are not both zero. */
  lemma AcceptedIs(ws: seq<word>, sum: word)
    ensures Accepted(ws, sum) <==> (Sum(ws) + sum) % Ones == 0 && Sum(ws) + sum > 0
  {
    OnesSumIs(ws);
    ReduceAdds(sum, Sum(ws));
  }

  lemma Divides(n: int, q: int)
    requires n == q * Ones
    ensures n % Ones == 0
  {
  }

  /** What Reduce takes away is a multiple of 0xffff. */
  lemma ReduceBy(n: nat) returns (q: nat)
    ensures Reduce(n) == n - q * Ones
  {
    q := if n == 0 then 0 else (n - 1) / Ones;
  }

  lemma SameRemainder(a: word, b: word, q: int)
    requires a - b == q * Ones
    ensures a % Ones == b % Ones
  {
  }

  /** What complements the sum is the checksum from scratch, modulo 0xffff; that one is accepted. */
  lemma ScratchIs(ws: seq<word>, sum: word)
    requires (Sum(ws) + sum) % Ones == 0
    ensures sum % Ones == Scratch(ws) % Ones && Accepted(ws, Scratch(ws))
  {
    OnesSumIs(ws);
    var q := ReduceBy(Sum(ws));
    hide OnesSum, Sum, Reduce;
    SameRemainder(sum, Scratch(ws), (Sum(ws) + sum) / Ones - q - 1);
  }

  // ---------------------------------------------------------------- the updates

  function Fold(n: nat): nat { n % 0x1_0000 + n / 0x1_0000 }

  /** csum_update_u16; C's conversions to 16 bits are written out. */
  function UpdateU16(ocsum: word, oval: word, nval: word): word {
    var c := (Ones - ocsum) + (Ones - oval) + nval;
    var d := c / 0x1_0000 + c % 0x1_0000;
    Ones - (d + d / 0x1_0000) % 0x1_0000
  }

  type dword = x: int | 0 <= x < 0x1_0000_0000

  function High(x: dword): word { x / 0x1_0000 }
  function Lower(x: dword): word { x % 0x1_0000 }

  /** csum_update_u32. */
  function UpdateU32(ocsum: word, oval: dword, nval: dword): word {
    var c := (Ones - High(oval)) + (Ones - Lower(oval)) + (Ones - High(nval)) + (Ones - Lower(nval)) + ocsum;
    Fold(Fold(c)) % 0x1_0000
  }

  /** csum_update_u16 puts the complement of ~ocsum + ~oval + nval, reduced. */
  lemma U16Is(ocsum: word, oval: word, nval: word)
    ensures UpdateU16(ocsum, oval, nval) == Ones - Reduce((Ones - ocsum) + (Ones - oval) + nval)
  {
  }

  lemma U32Is(ocsum: word, oval: dword, nval: dword)
    ensures UpdateU32(ocsum, oval, nval)
         == Reduce((Ones - High(oval)) + (Ones - Lower(oval)) + (Ones - High(nval)) + (Ones - Lower(nval)) + ocsum)
  {
    var c := (Ones - High(oval)) + (Ones - Lower(oval)) + (Ones - High(nval)) + (Ones - Lower(nval)) + ocsum;
    TwoFolds(c);
  }

  lemma ReduceIs(q: nat, r: nat)
    requires 0 < r <= Ones
    ensures Reduce(q * Ones + r) == r
  {
    assert (q * Ones + (r - 1)) % Ones == r - 1;
  }

  /** No bit is lost: two folds bring five words down to one. */
  lemma TwoFolds(n: nat)
    requires n <= 5 * Ones
    ensures Fold(Fold(n)) == Reduce(n)
  {
    var h, l := n / 0x1_0000, n % 0x1_0000;
    assert n == h * 0x1_0000 + l && h <= 4;
    var m := h + l;
    assert Fold(n) == m;
    if 0 < m <= Ones {
      ReduceIs(h, m);
    } else if m > Ones {
      ReduceIs(h + 1, m - Ones);
    }
  }

  /** Changing any part of a word: the updated checksum is accepted unless all the
      words have become zero, but for the one case with nothing to fold. */
  lemma UpdateU16Correct(ws: seq<word>, i: nat, oval: word, nval: word, ocsum: word)
    requires i < |ws| && oval <= ws[i] && ws[i] - oval + nval <= Ones && Accepted(ws, ocsum)
    ensures Accepted(ws[i := ws[i] - oval + nval], UpdateU16(ocsum, oval, nval))
       <==> Sum(ws[i := ws[i] - oval + nval]) > 0 || (ocsum == Ones && oval == Ones)
    ensures UpdateU16(ocsum, oval, nval) % Ones == Scratch(ws[i := ws[i] - oval + nval]) % Ones
  {
    var x := ws[i] - oval + nval;
    AcceptedIs(ws, ocsum);
    AcceptedIs(ws[i := x], UpdateU16(ocsum, oval, nval));
    SumSet(ws, i, x);
    SumAtLeast(ws, i);
    U16Is(ocsum, oval, nval);
    U16Numbers(Sum(ws), oval, nval, ocsum);
    ScratchIs(ws[i := x], UpdateU16(ocsum, oval, nval));
  }

  lemma U16Numbers(s: nat, oval: word, nval: word, ocsum: word)
    requires oval <= s && (s + ocsum) % Ones == 0 && s + ocsum > 0
    ensures var r := Ones - Reduce((Ones - ocsum) + (Ones - oval) + nval);
            && (s - oval + nval + r) % Ones == 0
            && (s - oval + nval + r > 0 <==> s - oval + nval > 0 || (ocsum == Ones && oval == Ones))
  {
    var p := (s + ocsum) / Ones;
    var c := (Ones - ocsum) + (Ones - oval) + nval;
    var q := ReduceBy(c);
    Divides(s - oval + nval + Ones - Reduce(c), p - 1 + q);
  }

  lemma SumAtLeast(ws: seq<word>, i: nat)
    requires i < |ws|
    ensures Sum(ws) >= ws[i]
  {
    SumSet(ws, i, 0);
  }

  predicate ZeroAt(ws: seq<word>, i: nat) { i + 1 < |ws| && ws[i] == 0 && ws[i + 1] == 0 }

  function FillAt(ws: seq<word>, i: nat, x: dword): seq<word>
    requires i + 1 < |ws|
  {
    ws[i := High(x)][i + 1 := Lower(x)]
  }

  lemma SumFill(ws: seq<word>, i: nat, x: dword)
    requires ZeroAt(ws, i)
    ensures Sum(FillAt(ws, i, x)) == Sum(ws) + High(x) + Lower(x)
  {
    SumSet(ws, i, High(x));
    SumSet(ws[i := High(x)], i + 1, Lower(x));
  }

  /** csum_update_u32 subtracts both its values, so it is right for filling two zeroed
      32-bit fields, whatever they are filled with. */
  lemma UpdateU32Correct(ws: seq<word>, i: nat, x: dword, j: nat, y: dword, ocsum: word)
    requires ZeroAt(ws, i) && ZeroAt(ws, j) && (i + 1 < j || j + 1 < i) && Accepted(ws, ocsum)
    ensures Accepted(FillAt(FillAt(ws, i, x), j, y), UpdateU32(ocsum, x, y))
    ensures UpdateU32(ocsum, x, y) % Ones == Scratch(FillAt(FillAt(ws, i, x), j, y)) % Ones
  {
    var ws' := FillAt(FillAt(ws, i, x), j, y);
    AcceptedIs(ws, ocsum);
    AcceptedIs(ws', UpdateU32(ocsum, x, y));
    SumFill(ws, i, x);
    SumFill(FillAt(ws, i, x), j, y);
    U32Is(ocsum, x, y);
    U32Numbers(Sum(ws), x, y, ocsum);
    ScratchIs(ws', UpdateU32(ocsum, x, y));
  }

  lemma U32Numbers(s: nat, x: dword, y: dword, ocsum: word)
    requires (s + ocsum) % Ones == 0 && s + ocsum > 0
    ensures var t, r := s + High(x) + Lower(x) + High(y) + Lower(y), UpdateU32(ocsum, x, y);
            (t + r) % Ones == 0 && t + r > 0
  {
    var p := (s + ocsum) / Ones;
    var c := (Ones - High(x)) + (Ones - Lower(x)) + (Ones - High(y)) + (Ones - Lower(y)) + ocsum;
    var q := ReduceBy(c);
    U32Is(ocsum, x, y);
    Divides(s + High(x) + Lower(x) + High(y) + Lower(y) + Reduce(c), p + 4 - q);
  }

  // ---------------------------------------------------------------- the inner checksum of VXLAN

  /** The words of a template segment, its TCP header at `k`: sequence number,
      acknowledgement and flags are zero, the header length beside the flags is not. */
  predicate Template(ws: seq<word>, k: nat) {
    k + 8 <= |ws| && ZeroAt(ws, k + 2) && ZeroAt(ws, k + 4) && ws[k + 6] % 256 == 0 && ws[k + 6] >= 0x5000
  }

  function SegmentWords(ws: seq<word>, k: nat, seqno: dword, ack: dword, flags: nat): seq<word>
    requires Template(ws, k) && flags < 256
  {
    FillAt(FillAt(ws, k + 2, seqno), k + 4, ack)[k + 6 := ws[k + 6] + flags]
  }

  /** The checksum tcp_new_packet makes out of the template's. */
  function VxlanSum(template: word, sndNxt: dword, rcvNxt: dword, flags: nat): word
    requires flags < 256
  {
    UpdateU16(UpdateU32(template, sndNxt, rcvNxt), 0, flags)
  }

  lemma SegmentSum(ws: seq<word>, k: nat, seqno: dword, ack: dword, flags: nat)
    requires Template(ws, k) && flags < 256
    ensures Sum(SegmentWords(ws, k, seqno, ack, flags)) == Sum(ws) + High(seqno) + Lower(seqno) + High(ack) +
        Lower(ack) + flags
    ensures Sum(SegmentWords(ws, k, seqno, ack, flags)) > 0
  {
    SumFill(ws, k + 2, seqno);
    SumFill(FillAt(ws, k + 2, seqno), k + 4, ack);
    SumSet(FillAt(FillAt(ws, k + 2, seqno), k + 4, ack), k + 6, ws[k + 6] + flags);
    SumAtLeast(SegmentWords(ws, k, seqno, ack, flags), k + 6);
  }

  lemma HalvesAdd(x: dword)
    ensures x == High(x) + Lower(x) + High(x) * Ones
  {
  }

  lemma CongruentEnds(a: int, b: int, x: dword, y: dword)
    requires a - b == High(x) + Lower(x) - High(y) - Lower(y) && a % Ones == 0
    ensures b % Ones == 0 <==> (x - y) % Ones == 0
  {
    HalvesAdd(x);
    HalvesAdd(y);
    var p := a / Ones;
    var d := High(x) - High(y);
    assert b == p * Ones - (x - y) + d * Ones;
    if b % Ones == 0 { Divides(x - y, p + d - b / Ones); }
    if (x - y) % Ones == 0 { Divides(b, p + d - (x - y) / Ones); }
  }

  /** The segment's words are the template's with two fields filled and the flags added. */
  lemma FlagsFit(ws: seq<word>, k: nat, seqno: dword, ack: dword, flags: nat)
    requires Template(ws, k) && flags < 256
    ensures k + 8 <= |ws| == |FillAt(ws, k + 2, seqno)|
    ensures var filled := FillAt(FillAt(ws, k + 2, seqno), k + 4, ack);
            && k + 6 < |filled| && filled[k + 6] + flags <= Ones
            && SegmentWords(ws, k, seqno, ack, flags) == filled[k + 6 := filled[k + 6] - 0 + flags]
  {
  }

  /** With the sequence number that the checksum accounts for it is accepted. */
  lemma VxlanRight(ws: seq<word>, k: nat, template: word, sndNxt: dword, rcvNxt: dword, flags: nat)
    requires Template(ws, k) && flags < 256 && Accepted(ws, template)
    ensures Accepted(SegmentWords(ws, k, sndNxt, rcvNxt, flags), VxlanSum(template, sndNxt, rcvNxt, flags))
  {
    hide Sum, Accepted, UpdateU32, UpdateU16, FillAt, SegmentWords;
    SegmentSum(ws, k, sndNxt, rcvNxt, flags);
    UpdateU32Correct(ws, k + 2, sndNxt, k + 4, rcvNxt, template);
    FlagsFit(ws, k, sndNxt, rcvNxt, flags);
    UpdateU16Correct(FillAt(FillAt(ws, k + 2, sndNxt), k + 4, rcvNxt), k + 6, 0, flags,
                     UpdateU32(template, sndNxt, rcvNxt));
  }

  /** A segment that starts at `sndUna` gets a checksum that accounts for `sndNxt`: it
      is accepted if and only if the two agree modulo 0xffff. */
  lemma VxlanExact(ws: seq<word>, k: nat, template: word, sndUna: dword, sndNxt: dword, rcvNxt: dword, flags: nat)
    requires Template(ws, k) && flags < 256 && Accepted(ws, template)
    ensures Accepted(SegmentWords(ws, k, sndUna, rcvNxt, flags), VxlanSum(template, sndNxt, rcvNxt, flags))
       <==> (sndNxt - sndUna) % Ones == 0
  {
    var r := VxlanSum(template, sndNxt, rcvNxt, flags);
    var right := SegmentWords(ws, k, sndNxt, rcvNxt, flags);
    var sent := SegmentWords(ws, k, sndUna, rcvNxt, flags);
    VxlanRight(ws, k, template, sndNxt, rcvNxt, flags);
    SegmentSum(ws, k, sndNxt, rcvNxt, flags);
    SegmentSum(ws, k, sndUna, rcvNxt, flags);
    AcceptedIs(right, r);
    AcceptedIs(sent, r);
    hide *;
    CongruentEnds(Sum(right) + r, Sum(sent) + r, sndNxt, sndUna);
  }

  /** The flags byte of the TCP header. */
  function FlagBits(f: Flags): (b: nat)
    ensures b < 256
  {
    (if f.fin then 1 else 0) + (if f.syn then 2 else 0) + (if f.rst then 4 else 0)
    + (if f.push then 8 else 0) + (if f.ack then 16 else 0) + (if f.urg then 32 else 0)
  }

  /** The receiver of segment `g` accepts its inner checksum. */
  predicate InnerAccepted(ws: seq<word>, k: nat, template: word, g: Segment, sndNxt: int)
    requires Template(ws, k)
  {
    && 0 <= g.seqno < TWO32 && 0 <= g.ack < TWO32 && 0 <= sndNxt < TWO32
    && Accepted(SegmentWords(ws, k, g.seqno, g.ack, FlagBits(g.flags)),
                VxlanSum(template, sndNxt, g.ack, FlagBits(g.flags)))
  }

  /** With nothing outstanding, and the sequence number not about to wrap, the inner
      checksum of a bare ACK is accepted, and that of a SYN, a FIN or data is not. */
  lemma VxlanPacket(cfg: Config, st: St, f: Flags, ws: seq<word>, k: nat, template: word)
    requires Template(ws, k) && Accepted(ws, template)
    requires cfg.arith == Wrap32 && st.sk.sndNxt == st.sk.sndUna && (st.pool == [] || st.pool[0])
    requires 0 <= st.sk.rcvNxt < TWO32 && 0 <= st.sk.sndUna && st.sk.sndUna + Advance(cfg, f) < TWO32
    requires Advance(cfg, f) < Ones
    ensures var st', g := NewPacket(cfg, st, f), Segment(st.sk.sndUna, st.sk.rcvNxt, WireFlags(f), DataLen(cfg, f));
            && st'.sent == st.sent + [g] && 0 <= st'.sk.sndNxt < TWO32
            && (InnerAccepted(ws, k, template, g, st'.sk.sndNxt) <==> Advance(cfg, f) == 0)
  {
    hide Accepted, SegmentWords, VxlanSum, Advance, FlagBits, DataLen, WireFlags, Template, NewPacket;
    PacketOf(cfg, st, f);
    VxlanExact(ws, k, template, st.sk.sndUna, st.sk.sndUna + Advance(cfg, f), st.sk.rcvNxt, FlagBits(WireFlags(f)));
    Remainder(Advance(cfg, f));
  }

  lemma Remainder(n: nat)
    requires n < Ones
    ensures n % Ones == n
  {
  }

  lemma PacketOf(cfg: Config, st: St, f: Flags)
    requires cfg.arith == Wrap32 && st.sk.sndNxt == st.sk.sndUna && (st.pool == [] || st.pool[0])
    requires 0 <= st.sk.sndUna && st.sk.sndUna + Advance(cfg, f) < TWO32
    ensures NewPacket(cfg, st, f).sk.sndNxt == st.sk.sndUna + Advance(cfg, f)
    ensures NewPacket(cfg, st, f).sent == st.sent + [Segment(st.sk.sndUna, st.sk.rcvNxt, WireFlags(f), DataLen(cfg, f))]
  {
  }
}
