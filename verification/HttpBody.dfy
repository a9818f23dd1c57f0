/** Whole response bodies: cut into segments in any way, and chunked bodies as
    section 4.1 of RFC 7230 writes them. */
module HttpBody {
  import opened Verdicts
  import opened HttpHeader
  import opened HttpParse

  // ---------------------------------------------------------------- segmentation

  function Concat(segs: seq<seq<byte>>): seq<byte> {
    if segs == [] then [] else segs[0] + Concat(segs[1..])
  }

  /** Segment after segment, each parsed from where the last one stopped, until one ends it or fails. */
  function EatSegments(p: Parse, segs: seq<seq<byte>>): Outcome
    decreases |segs|
  {
    if segs == [] then Outcome(Enter(p), More)
    else
      var o := EatAll(p, segs[0]);
      if o.verdict == More then EatSegments(o.parse, segs[1..]) else o
  }

  /** How a body is cut into segments makes no difference. */
  lemma {:induction false} AnySegmentation(p: Parse, segs: seq<seq<byte>>)
    ensures EatSegments(p, segs) == EatAll(p, Concat(segs))
    decreases |segs|
  {
    if segs != [] {
      EatSplit(p, segs[0], Concat(segs[1..]));
      AnySegmentation(EatAll(p, segs[0]).parse, segs[1..]);
    }
  }

  /** Segments of a response, each parsed from where the last one stopped, until one ends it or fails. */
  function RunSegments(f: Fields, segs: seq<seq<byte>>): (Fields, Verdict)
    requires Sane(f)
    decreases |segs|
  {
    if segs == [] then (f, More)
    else
      var (g, v) := Run(f, segs[0]);
      if v == More then RunSegments(g, segs[1..]) else (g, v)
  }

  method ParseSegments(k: Parser, segs: seq<seq<byte>>) returns (v: Verdict)
    requires Sane(k.Values())
    modifies k
    ensures var (g, w) := RunSegments(old(k.Values()), segs); v == w && (v != Error ==> k.Values() == g)
  {
    var i, first := 0, false;
    v := More;
    while i < |segs| && v == More
      invariant i <= |segs| && (v != Error ==> Sane(k.Values()))
      invariant var (g, w) := RunSegments(old(k.Values()), segs);
                if v == More then (g, w) == RunSegments(k.Values(), segs[i..])
                else v == w && (v != Error ==> k.Values() == g)
    {
      assert segs[i..][0] == segs[i] && segs[i..][1..] == segs[i + 1..];
      v, first := k.ParseRun(segs[i]);
      i := i + 1;
    }
  }

  lemma {:induction false} StaysInChunks(p: Parse, data: seq<byte>)
    requires InChunks(p.state)
    ensures var o := EatAll(p, data);
            (o.verdict == More ==> InChunks(o.parse.state)) &&
            (InChunks(o.parse.state) ==> o.parse.state != HeaderDone || o.verdict == Error)
    decreases |data|
  {
    if data != [] {
      EatStays(p, data[0]);
      if Eat(p, data[0]).verdict == More { StaysInChunks(Eat(p, data[0]).parse, data[1..]); }
    }
  }

  // ---------------------------------------------------------------- counted bodies

  function Total(lens: seq<nat>): nat {
    if lens == [] then 0 else lens[0] + Total(lens[1..])
  }

  /** Segments of these lengths, each parsed from where the last one stopped, until one ends the body or fails. */
  function CountSegments(p: Parse, lens: seq<nat>): Outcome
    decreases |lens|
  {
    if lens == [] then Outcome(p, More)
    else
      var o := Counted(p, lens[0]);
      if o.verdict == More then CountSegments(o.parse, lens[1..]) else o
  }

  /** Some segment ends exactly where the body does. */
  predicate Lands(length: nat, lens: seq<nat>) {
    exists k :: 0 < k <= |lens| && Total(lens[..k]) == length
  }

  lemma LandsStep(length: nat, lens: seq<nat>)
    requires lens != []
    ensures Lands(length, lens) <==> lens[0] == length || (lens[0] < length && Lands(length - lens[0], lens[1..]))
  {
    forall k | 0 < k <= |lens| ensures Total(lens[..k]) == lens[0] + Total(lens[1..][..k - 1]) {
      assert lens[..k][1..] == lens[1..][..k - 1];
    }
    if lens[0] == length {
      assert lens[1..][..0] == [] && Total(lens[..1]) == length;
    }
    if lens[0] < length && Lands(length - lens[0], lens[1..]) {
      var k :| 0 < k <= |lens[1..]| && Total(lens[1..][..k]) == length - lens[0];
      assert Total(lens[..k + 1]) == length;
    }
    if Lands(length, lens) && lens[0] != length {
      var k :| 0 < k <= |lens| && Total(lens[..k]) == length;
      assert k > 1 || lens[1..][..0] == [];
      assert Total(lens[1..][..k - 1]) == length - lens[0];
    }
  }

  /** However a counted body is cut into segments: it goes on while they fall short, ends if
      one of them ends where the body does, and fails otherwise. */
  lemma {:induction false} CountedOutcome(p: Parse, lens: seq<nat>)
    requires lens != []
    ensures var o := CountSegments(p, lens);
            && (Total(lens) < p.length ==> o == Counted(p, Total(lens)))
            && (Total(lens) >= p.length ==> o.verdict == if Lands(p.length, lens) then End else Error)
            && (o.verdict == End ==> o.parse == Parse(BodyDone, 0))
    decreases |lens|
  {
    LandsStep(p.length, lens);
    if lens[0] < p.length {
      var q := Counted(p, lens[0]).parse;
      if lens[1..] == [] {
        assert Total(lens) == lens[0];
        assert !Lands(q.length, []);
      } else {
        CountedOutcome(q, lens[1..]);
      }
    }
  }

  /** So cutting makes no difference if and only if the segments do not pass the end of the
      body, or none of them ends there: what follows in the same segment is an error, what
      follows in a later one comes after the end. */
  lemma CountedSegmentation(p: Parse, lens: seq<nat>)
    requires lens != []
    ensures CountSegments(p, lens).verdict == Counted(p, Total(lens)).verdict <==>
        Total(lens) <= p.length || !Lands(p.length, lens)
  {
    CountedOutcome(p, lens);
    if Total(lens) == p.length { assert lens[..|lens|] == lens; }
  }

  // ---------------------------------------------------------------- after the end

  /** Bytes behind the end of a body in the same segment: an error when it was counted,
      dropped when it was chunked. */
  lemma SurplusInSegment(p: Parse, a: seq<byte>, b: seq<byte>)
    requires b != []
    ensures Counted(p, |a|).verdict == End ==> Counted(p, |a + b|).verdict == Error
    ensures EatAll(p, a).verdict == End ==> EatAll(p, a + b) == EatAll(p, a)
  {
    EatSplit(p, a, b);
  }

  /** In a segment of its own, were the parser not started anew, it is an error for both. */
  lemma SurplusAfterEnd(p: Parse, a: seq<byte>, b: seq<byte>)
    requires b != []
    ensures Counted(p, |a|).verdict == End ==> Counted(Counted(p, |a|).parse, |b|).verdict == Error
    ensures EatAll(p, a).verdict == End ==> EatAll(EatAll(p, a).parse, b).verdict == Error
  {
    SurplusOfRest(p, a, b);
  }

  lemma {:induction false} SurplusOfRest(p: Parse, a: seq<byte>, b: seq<byte>)
    requires b != []
    ensures EatAll(p, a).verdict == End ==> EatAll(EatAll(p, a).parse, b).verdict == Error
    decreases |a|
  {
    if a != [] && Eat(p, a[0]).verdict == More { SurplusOfRest(Eat(p, a[0]).parse, a[1..], b); }
  }

  // ---------------------------------------------------------------- the chunked format

  /** chunk-size [chunk-ext] CRLF chunk-data CRLF, the size in lower-case hex. */
  datatype Chunk = Chunk(digits: seq<byte>, ext: seq<byte>, data: seq<byte>)

  function HexValue(acc: nat, digits: seq<byte>): nat
    requires forall c :: c in digits ==> IsHex(c)
    decreases |digits|
  {
    if digits == [] then acc else HexValue(acc * 16 + HexDigit(digits[0]), digits[1..])
  }

  predicate SizeLine(digits: seq<byte>, ext: seq<byte>, size: nat) {
    && digits != [] && (forall c :: c in digits ==> IsHex(c)) && HexValue(0, digits) == size
    && LF !in ext && (ext != [] ==> !IsHex(ext[0]))
  }

  predicate ValidChunk(c: Chunk) { c.data != [] && SizeLine(c.digits, c.ext, |c.data|) }

  /** A trailer field: not empty, so it is not taken for the end. */
  predicate ValidTrailer(line: seq<byte>) { line != [] && line[0] != CR && LF !in line }

  function PrintChunk(c: Chunk): seq<byte> { c.digits + c.ext + [CR, LF] + c.data + [CR, LF] }

  function PrintChunks(cs: seq<Chunk>): seq<byte> {
    if cs == [] then [] else PrintChunk(cs[0]) + PrintChunks(cs[1..])
  }

  function PrintTrailers(ls: seq<seq<byte>>): seq<byte> {
    if ls == [] then [] else ls[0] + [CR, LF] + PrintTrailers(ls[1..])
  }

  /** The body but for its last byte. */
  function AllButLast(cs: seq<Chunk>, zeros: seq<byte>, ext: seq<byte>, ls: seq<seq<byte>>): seq<byte> {
    PrintChunks(cs) + (zeros + ext + [CR, LF]) + PrintTrailers(ls) + [CR]
  }

  function Print(cs: seq<Chunk>, zeros: seq<byte>, ext: seq<byte>, ls: seq<seq<byte>>): seq<byte> {
    AllButLast(cs, zeros, ext, ls) + [LF]
  }

  // ---------------------------------------------------------------- round trip

  /** `p` eats all of `s` and is then in `q`. */
  predicate Eats(p: Parse, s: seq<byte>, q: Parse) { EatAll(p, s) == Outcome(q, More) }

  lemma EatsThen(p: Parse, a: seq<byte>, q: Parse, b: seq<byte>, r: Parse)
    requires Eats(p, a, q) && Eats(q, b, r)
    ensures Eats(p, a + b, r)
  {
    EatSplit(p, a, b);
  }

  lemma {:induction false} EatsDigits(acc: nat, digits: seq<byte>)
    requires forall c :: c in digits ==> IsHex(c)
    ensures Eats(Parse(ChunkSize, acc), digits, Parse(ChunkSize, HexValue(acc, digits)))
    decreases |digits|
  {
    if digits != [] {
      assert digits[0] in digits;
      EatsDigits(acc * 16 + HexDigit(digits[0]), digits[1..]);
    }
  }

  /** The rest of a line without LF is skipped in a state that waits for one. */
  lemma {:induction false} EatsLine(p: Parse, line: seq<byte>)
    requires p.state in {ChunkSizeEnd, Trailer} && LF !in line
    ensures Eats(p, line, p)
    decreases |line|
  {
    if line != [] { EatsLine(p, line[1..]); }
  }

  lemma EatsOne(p: Parse, c: byte)
    requires Eat(p, c).verdict == More && Eat(p, c).parse.state != HeaderDone
    ensures Eats(p, [c], Eat(p, c).parse)
  {
  }

  /** A size line leads to the data, or to the trailer when the size is zero. */
  lemma EatsSizeLine(digits: seq<byte>, ext: seq<byte>, size: nat)
    requires SizeLine(digits, ext, size)
    ensures Eats(Parse(ChunkSize, 0), digits + ext + [CR, LF],
                 Parse(if size > 0 then ChunkData else TrailerBegin, size))
  {
    EatsDigits(0, digits);
    var a, b := Parse(ChunkSize, size), Parse(ChunkSizeEnd, size);
    var line := ext + [CR];
    EatsOne(a, line[0]);
    EatsLine(b, line[1..]);
    EatsThen(a, [line[0]], b, line[1..], b);
    assert [line[0]] + line[1..] == line;
    EatsOne(b, LF);
    EatsThen(a, line, b, [LF], Eat(b, LF).parse);
    EatsThen(Parse(ChunkSize, 0), digits, a, line + [LF], Eat(b, LF).parse);
    assert digits + (line + [LF]) == digits + ext + [CR, LF];
  }

  lemma EatsChunk(c: Chunk)
    requires ValidChunk(c)
    ensures Eats(Parse(ChunkSize, 0), PrintChunk(c), Parse(ChunkSize, 0))
  {
    var n := |c.data|;
    EatsSizeLine(c.digits, c.ext, n);
    EatData(n, c.data);
    var head := c.digits + c.ext + [CR, LF];
    EatsThen(Parse(ChunkSize, 0), head, Parse(ChunkData, n), c.data, Parse(ChunkData, 0));
    EatsOne(Parse(ChunkData, 0), CR);
    EatsOne(Parse(ChunkDataEnd, 0), LF);
    EatsThen(Parse(ChunkData, 0), [CR], Parse(ChunkDataEnd, 0), [LF], Parse(ChunkSize, 0));
    EatsThen(Parse(ChunkSize, 0), head + c.data, Parse(ChunkData, 0), [CR] + [LF], Parse(ChunkSize, 0));
    assert head + c.data + ([CR] + [LF]) == PrintChunk(c);
  }

  lemma {:induction false} EatsChunks(cs: seq<Chunk>)
    requires forall c :: c in cs ==> ValidChunk(c)
    ensures Eats(Parse(ChunkSize, 0), PrintChunks(cs), Parse(ChunkSize, 0))
    decreases |cs|
  {
    if cs != [] {
      assert cs[0] in cs;
      EatsChunk(cs[0]);
      EatsChunks(cs[1..]);
      EatsThen(Parse(ChunkSize, 0), PrintChunk(cs[0]), Parse(ChunkSize, 0), PrintChunks(cs[1..]), Parse(ChunkSize, 0));
    }
  }

  lemma {:induction false} EatsTrailers(ls: seq<seq<byte>>)
    requires forall l :: l in ls ==> ValidTrailer(l)
    ensures Eats(Parse(TrailerBegin, 0), PrintTrailers(ls), Parse(TrailerBegin, 0))
    decreases |ls|
  {
    if ls != [] {
      var a, b, l := Parse(TrailerBegin, 0), Parse(Trailer, 0), ls[0];
      assert l in ls;
      EatsOne(a, l[0]);
      EatsLine(b, l[1..] + [CR]);
      EatsThen(a, [l[0]], b, l[1..] + [CR], b);
      EatsOne(b, LF);
      EatsThen(a, [l[0]] + (l[1..] + [CR]), b, [LF], a);
      EatsTrailers(ls[1..]);
      EatsThen(a, [l[0]] + (l[1..] + [CR]) + [LF], a, PrintTrailers(ls[1..]), a);
      assert [l[0]] + (l[1..] + [CR]) + [LF] + PrintTrailers(ls[1..]) == PrintTrailers(ls);
    }
  }

  /** A prefix of something eaten whole is eaten whole. */
  lemma PrefixEaten(p: Parse, s: seq<byte>, k: nat)
    requires k <= |s| && EatAll(p, s).verdict == More
    ensures EatAll(p, s[..k]).verdict == More
  {
    EatSplit(p, s[..k], s[k..]);
    assert s[..k] + s[k..] == s;
  }

  /** Every body the standard's grammar writes is read back: no proper prefix ends
      or fails, and the whole of it ends exactly at its last byte. */
  lemma RoundTrip(cs: seq<Chunk>, zeros: seq<byte>, ext: seq<byte>, ls: seq<seq<byte>>)
    requires (forall c :: c in cs ==> ValidChunk(c)) && SizeLine(zeros, ext, 0)
    requires (forall l :: l in ls ==> ValidTrailer(l))
    ensures var body := Print(cs, zeros, ext, ls);
            && EatAll(Parse(HeaderDone, 0), body) == Outcome(Parse(BodyDone, 0), End)
            && forall k :: 0 <= k < |body| ==> EatAll(Parse(HeaderDone, 0), body[..k]).verdict == More
  {
    var start, s, t := Parse(HeaderDone, 0), Parse(ChunkSize, 0), Parse(TrailerBegin, 0);
    var most, body := AllButLast(cs, zeros, ext, ls), Print(cs, zeros, ext, ls);
    var last := zeros + ext + [CR, LF];
    EatsChunks(cs);
    EatsSizeLine(zeros, ext, 0);
    EatsThen(s, PrintChunks(cs), s, last, t);
    EatsTrailers(ls);
    EatsThen(s, PrintChunks(cs) + last, t, PrintTrailers(ls), t);
    EatsOne(t, CR);
    EatsThen(s, PrintChunks(cs) + last + PrintTrailers(ls), t, [CR], Parse(ChunkEnd, 0));
    assert EatAll(start, most) == EatAll(s, most);
    EatSplit(start, most, [LF]);
    forall k | 0 <= k < |body| ensures EatAll(start, body[..k]).verdict == More {
      PrefixEaten(start, most, k);
      assert body[..k] == most[..k];
    }
  }

  // ---------------------------------------------------------------- whole responses

  function Lens(segs: seq<seq<byte>>): (r: seq<nat>)
    ensures |r| == |segs| && Total(r) == |Concat(segs)|
    decreases |segs|
  {
    if segs == [] then [] else [|segs[0]|] + Lens(segs[1..])
  }

  /** Behind the header block the fields only say how the body is read. */
  lemma {:induction false} BodySegments(f: Fields, segs: seq<seq<byte>>)
    requires Sane(f) && !InHeader(f.state) && segs != []
    ensures f.counted ==> RunSegments(f, segs) == Said(f, CountSegments(Parse(f.state, f.length), Lens(segs)))
    ensures !f.counted && f.chunked && InChunks(f.state) ==>
              RunSegments(f, segs) == Said(f, EatSegments(Parse(f.state, f.length), segs))
    ensures !f.counted && !f.chunked ==> RunSegments(f, segs) == (f, More)
    decreases |segs|
  {
    if f.chunked && !f.counted && InChunks(f.state) { StaysInChunks(Parse(f.state, f.length), segs[0]); }
    var (g, v) := Run(f, segs[0]);
    if v == More && segs[1..] != [] { BodySegments(g, segs[1..]); }
  }

  predicate Block(lines: seq<seq<byte>>, end: seq<byte>) {
    lines != [] && (forall l :: l in lines ==> FieldLine(l)) && Line(end) && Blank(end)
  }

  /** A response whose header block is in its first segment, cut behind it in any way: the
      block decides between an error, a counted body, a chunked one, and one that goes on. */
  lemma ResponseIs(alive: bool, lines: seq<seq<byte>>, end: seq<byte>, first: seq<byte>, segs: seq<seq<byte>>)
    requires Block(lines, end)
    ensures var s := Fold(Opened(Anew(alive)), lines);
            var r := RunSegments(Anew(alive), [Text(lines) + end + first] + segs);
            var body := [first] + segs;
            if s.Bad? then r.1 == Error
            else
              var g := Ended(s.fields);
              && Sane(g)
              && (g.counted ==> r == Said(g, CountSegments(Parse(HeaderDone, g.length), Lens(body))))
              && (!g.counted && g.chunked ==> r == Said(g, EatAll(Parse(HeaderDone, g.length), Concat(body))))
              && (!g.counted && !g.chunked ==> r == (g, More))
  {
    var body := [first] + segs;
    var text := Text(lines) + end + first;
    BlockRun(alive, lines, end, first);
    var s := Fold(Opened(Anew(alive)), lines);
    hide Run, Fold, Text, Ended, Block, Body, Counted, EatAll;
    assert ([text] + segs)[1..] == segs == body[1..];
    if s.Scan? {
      var g := Ended(s.fields);
      assert RunSegments(Anew(alive), [text] + segs) == RunSegments(g, body);
      BodySegments(g, body);
      if g.length >= 0 { AnySegmentation(Parse(HeaderDone, g.length), body); }
    }
  }

  lemma BlockRun(alive: bool, lines: seq<seq<byte>>, end: seq<byte>, first: seq<byte>)
    requires Block(lines, end)
    ensures var s := Fold(Opened(Anew(alive)), lines);
            if s.Bad? then Run(Anew(alive), Text(lines) + end + first).1 == Error
            else
              var g := Ended(s.fields);
              g.state == HeaderDone && Sane(g) && Run(Anew(alive), Text(lines) + end + first) == Run(g, first)
  {
    hide Fold, Headers, Text, FieldLine, Blank;
    var f, text := Opened(Anew(alive)), Text(lines) + end + first;
    BlockIs(f, lines, end, first);
    HeadersSane(f, text);
    if Fold(f, lines).Scan? { assert text[|Text(lines) + end|..] == first; }
  }

  // ---------------------------------------------------------------- responses on one connection

  /** A response: its header block, and a body that is counted or printed in chunks. */
  datatype Response =
    | CountedBody(lines: seq<seq<byte>>, end: seq<byte>, body: seq<byte>)
    | ChunkedBody(lines: seq<seq<byte>>, end: seq<byte>, cs: seq<Chunk>, zeros: seq<byte>, ext: seq<byte>,
                  trailers: seq<seq<byte>>)

  function BodyText(m: Response): seq<byte> {
    match m
    case CountedBody(_, _, body) => body
    case ChunkedBody(_, _, cs, zeros, ext, trailers) => Print(cs, zeros, ext, trailers)
  }

  /** Its lines say how the body is written: one of the two ways, and the length it has. */
  ghost predicate ValidResponse(m: Response) {
    && Block(m.lines, m.end) && !Says(m.lines, Negative)
    && match m
       case CountedBody(lines, _, body) =>
         !Says(lines, ChunkedLine) && exists i: nat :: LastLength(lines, i, |body|)
       case ChunkedBody(lines, _, cs, zeros, ext, trailers) =>
         && Says(lines, ChunkedLine) && !Says(lines, LengthLine) && (forall c :: c in cs ==> ValidChunk(c))
         && SizeLine(zeros, ext, 0) && (forall l :: l in trailers ==> ValidTrailer(l))
  }

  /** Cut into segments, the header block in the first and none of them empty. */
  ghost predicate CutOf(m: Response, segs: seq<seq<byte>>) {
    && segs != [] && Concat(segs) == Text(m.lines) + m.end + BodyText(m)
    && |segs[0]| >= |Text(m.lines) + m.end| && (forall s :: s in segs ==> s != [])
  }

  /** The parser goes on up to the last segment and ends with it. */
  predicate EndsWith(alive: bool, segs: seq<seq<byte>>) {
    && segs != [] && RunSegments(Anew(alive), segs[..|segs| - 1]).1 == More
    && RunSegments(Anew(alive), segs).1 == End
  }

  lemma OneLastLength(lines: seq<seq<byte>>, i: nat, n: int, j: nat, m: int)
    requires LastLength(lines, i, n) && LastLength(lines, j, m)
    ensures n == m && Says(lines, LengthLine)
  {
    assert lines[i] in lines;
  }

  /** What the block of a valid response says. */
  lemma Framed(alive: bool, m: Response)
    requires ValidResponse(m)
    ensures var s := Fold(Opened(Anew(alive)), m.lines);
            && s.Scan?
            && var g := Ended(s.fields);
               if m.CountedBody? then g.counted && g.length == |m.body| else g.chunked && !g.counted && g.length == 0
  {
    FramingIff(Opened(Anew(alive)), m.lines);
    var s := Fold(Opened(Anew(alive)), m.lines);
    hide Fold, Says, LastLength;
    if m.CountedBody? {
      var i: nat :| LastLength(m.lines, i, |m.body|);
      OneLastLength(m.lines, i, |m.body|, i, |m.body|);
      var j: nat :| LastLength(m.lines, j, s.fields.length);
      OneLastLength(m.lines, i, |m.body|, j, s.fields.length);
    }
  }

  lemma {:induction false} ConcatAppend(a: seq<seq<byte>>, b: seq<seq<byte>>)
    ensures Concat(a + b) == Concat(a) + Concat(b)
    decreases |a|
  {
    if a == [] {
      assert a + b == b;
    } else {
      assert (a + b)[1..] == a[1..] + b;
      ConcatAppend(a[1..], b);
    }
  }

  lemma SplitFirst(segs: seq<seq<byte>>, block: seq<byte>, body: seq<byte>) returns (first: seq<byte>)
    requires segs != [] && Concat(segs) == block + body && |segs[0]| >= |block|
    ensures segs[0] == block + first && first + Concat(segs[1..]) == body
  {
    var rest := Concat(segs[1..]);
    first := segs[0][|block|..];
    hide Concat;
    assert segs[0] + rest == block + body;
    assert block == (block + body)[..|block|] == segs[0][..|block|];
    assert body == (block + body)[|block|..] == first + rest;
  }

  /** The segments of a response behind its header block: the body and its cut. */
  lemma BodyOfCut(m: Response, segs: seq<seq<byte>>) returns (first: seq<byte>)
    requires CutOf(m, segs)
    ensures segs == [Text(m.lines) + m.end + first] + segs[1..]
    ensures Concat([first] + segs[1..]) == BodyText(m)
  {
    hide Text, BodyText;
    first := SplitFirst(segs, Text(m.lines) + m.end, BodyText(m));
    assert ([first] + segs[1..])[1..] == segs[1..];
  }

  /** All segments but the last, which is not empty, fall short of the whole. */
  lemma FallShort(body: seq<seq<byte>>)
    requires body != [] && (|body| > 1 ==> body[|body| - 1] != [])
    ensures var most, whole := Concat(body[..|body| - 1]), Concat(body);
            |most| <= |whole| && most == whole[..|most|] && (|body| > 1 ==> |most| < |whole|)
  {
    var last := body[|body| - 1];
    ConcatAppend(body[..|body| - 1], [last]);
    assert body == body[..|body| - 1] + [last];
    assert Concat([last]) == last;
  }

  lemma CountedEnds(length: nat, body: seq<seq<byte>>)
    requires body != [] && |Concat(body)| == length && (|body| > 1 ==> body[|body| - 1] != [])
    ensures var p := Parse(HeaderDone, length);
            && CountSegments(p, Lens(body)).verdict == End
            && (|body| > 1 ==> CountSegments(p, Lens(body[..|body| - 1])).verdict == More)
  {
    var p, lens := Parse(HeaderDone, length), Lens(body);
    FallShort(body);
    hide CountSegments, Counted;
    CountedOutcome(p, lens);
    assert lens[..|lens|] == lens;
    if |body| > 1 {
      CountedOutcome(p, Lens(body[..|body| - 1]));
      CountedMore(p, |Concat(body[..|body| - 1])|);
    }
  }

  lemma CountedMore(p: Parse, n: nat)
    requires n < p.length
    ensures Counted(p, n).verdict == More
  {
  }

  lemma ChunkedEnds(m: Response, body: seq<seq<byte>>)
    requires ValidResponse(m) && m.ChunkedBody?
    requires body != [] && Concat(body) == BodyText(m) && (|body| > 1 ==> body[|body| - 1] != [])
    ensures EatAll(Parse(HeaderDone, 0), Concat(body)).verdict == End
    ensures |body| > 1 ==> EatAll(Parse(HeaderDone, 0), Concat(body[..|body| - 1])).verdict == More
  {
    hide Block, Says, LastLength, EatAll, Print;
    FallShort(body);
    RoundTrip(m.cs, m.zeros, m.ext, m.trailers);
  }

  /** The body decides, read as the block says. */
  lemma BodyDecides(alive: bool, m: Response, first: seq<byte>, more: seq<seq<byte>>)
    requires ValidResponse(m)
    ensures RunSegments(Anew(alive), [Text(m.lines) + m.end + first] + more).1
         == if m.CountedBody? then CountSegments(Parse(HeaderDone, |m.body|), Lens([first] + more)).verdict
            else EatAll(Parse(HeaderDone, 0), Concat([first] + more)).verdict
  {
    Framed(alive, m);
    hide Block, Says, Fold, CountSegments, EatAll, RunSegments, Concat, Ended, Lens, Text;
    ResponseIs(alive, m.lines, m.end, first, more);
  }

  /** However a response is cut behind its header block, the parser goes on up to the last
      segment and ends with it. */
  lemma ResponseEnds(alive: bool, m: Response, segs: seq<seq<byte>>)
    requires ValidResponse(m) && CutOf(m, segs)
    ensures EndsWith(alive, segs)
  {
    hide ValidResponse, CutOf, CountSegments, EatAll, RunSegments, Concat, Lens, Text, Print;
    NoSegments(alive);
    var first := BodyOfCut(m, segs);
    BodyNotEmpty(first, m, segs);
    BodyDecides(alive, m, first, segs[1..]);
    var body := [first] + segs[1..];
    if m.CountedBody? { CountedEnds(|m.body|, body); } else { ChunkedEnds(m, body); }
    if |segs| > 1 {
      var most := segs[1..|segs| - 1];
      BodyDecides(alive, m, first, most);
      AllButLastOf(Text(m.lines) + m.end + first, segs);
      AllButLastOf(first, body);
      assert body[1..|body| - 1] == most;
    }
  }

  lemma NoSegments(alive: bool)
    ensures RunSegments(Anew(alive), []).1 == More
  {
  }

  lemma AllButLastOf(x: seq<byte>, segs: seq<seq<byte>>)
    requires |segs| > 1 && segs[0] == x
    ensures segs[..|segs| - 1] == [x] + segs[1..|segs| - 1]
  {
  }

  lemma BodyNotEmpty(first: seq<byte>, m: Response, segs: seq<seq<byte>>)
    requires CutOf(m, segs)
    ensures segs != []
    ensures var body := [first] + segs[1..]; |body| > 1 ==> body[|body| - 1] != []
  {
    assert segs[|segs| - 1] in segs;
  }

  /** The fields of a connection, and how many responses ended and how many failed so far. */
  datatype Tally = Tally(fields: Fields, ends: nat, errors: nat)

  function Next(t: Tally, data: seq<byte>): (r: Tally)
    requires Sane(t.fields)
    ensures Sane(r.fields)
  {
    var (g, v) := Received(t.fields, data);
    Tally(g, t.ends + if v == End then 1 else 0, t.errors + if v == Error then 1 else 0)
  }

  /** All segments that arrive on a connection, with the parser started anew as the client does. */
  function ReceiveAll(t: Tally, segs: seq<seq<byte>>): Tally
    requires Sane(t.fields)
    decreases |segs|
  {
    if segs == [] then t else ReceiveAll(Next(t, segs[0]), segs[1..])
  }

  lemma {:induction false} ReceiveAppend(t: Tally, a: seq<seq<byte>>, b: seq<seq<byte>>)
    requires Sane(t.fields)
    ensures Sane(ReceiveAll(t, a).fields) && ReceiveAll(t, a + b) == ReceiveAll(ReceiveAll(t, a), b)
    decreases |a|
  {
    if a == [] {
      assert a + b == b;
    } else {
      assert (a + b)[1..] == a[1..] + b;
      hide Next;
      ReceiveAppend(Next(t, a[0]), a[1..], b);
    }
  }

  /** Segments that end a response with their last one are one response, and leave the parser anew. */
  lemma {:induction false} ReceivesOne(t: Tally, segs: seq<seq<byte>>) returns (alive: bool)
    requires Sane(t.fields) && segs != []
    requires RunSegments(t.fields, segs[..|segs| - 1]).1 == More && RunSegments(t.fields, segs).1 == End
    ensures ReceiveAll(t, segs) == Tally(Anew(alive), t.ends + 1, t.errors)
    decreases |segs|
  {
    var (g, v) := Run(t.fields, segs[0]);
    if |segs| == 1 {
      assert segs[1..] == [];
      alive := v == End && g.keepalive;
    } else {
      assert segs[..|segs| - 1][1..] == segs[1..][..|segs| - 2];
      hide Run;
      alive := ReceivesOne(t.(fields := g), segs[1..]);
    }
  }

  lemma ReceivesResponse(t: Tally, m: Response, segs: seq<seq<byte>>) returns (alive: bool)
    requires t.fields == Anew(t.fields.keepalive) && ValidResponse(m) && CutOf(m, segs)
    ensures ReceiveAll(t, segs) == Tally(Anew(alive), t.ends + 1, t.errors)
  {
    hide ValidResponse, CutOf, RunSegments, Next, ReceiveAll;
    ResponseEnds(t.fields.keepalive, m, segs);
    alive := ReceivesOne(t, segs);
  }

  /** Responses one after another on a connection, each beginning in a segment of its own:
      the client counts each of them once, and no error. */
  lemma {:induction false} EachResponseOnce(t: Tally, ms: seq<Response>, cuts: seq<seq<seq<byte>>>)
    returns (alive: bool)
    requires t.fields == Anew(t.fields.keepalive)
    requires |ms| == |cuts| && forall i :: 0 <= i < |ms| ==> ValidResponse(ms[i]) && CutOf(ms[i], cuts[i])
    ensures ReceiveAll(t, Flat(cuts)) == Tally(Anew(alive), t.ends + |ms|, t.errors)
    decreases |ms|
  {
    alive := t.fields.keepalive;
    if ms != [] {
      hide ValidResponse, CutOf, RunSegments, Next;
      alive := ReceivesResponse(t, ms[0], cuts[0]);
      hide ReceiveAll;
      ReceiveAppend(t, cuts[0], Flat(cuts[1..]));
      alive := EachResponseOnce(ReceiveAll(t, cuts[0]), ms[1..], cuts[1..]);
    }
  }

  function Flat(cuts: seq<seq<seq<byte>>>): seq<seq<byte>> {
    if cuts == [] then [] else cuts[0] + Flat(cuts[1..])
  }
}
