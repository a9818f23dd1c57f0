/** A header block that does not arrive in one segment: which cuts the parser survives. */
module HttpCut {
  import opened Verdicts
  import opened HttpHeader
  import opened HttpParse
  import opened HttpBody

  /** A segment that ends inside the header block. The parser goes on to the body all the same:
      it goes on only if no line so far gave the length 0 or the chunked coding. */
  lemma CutVerdict(f: Fields, lines: seq<seq<byte>>, part: seq<byte>)
    requires Sane(f) && InHeader(f.state) && (forall l :: l in lines ==> FieldLine(l)) && LF !in part
    ensures var s, r := Fold(Opened(f), lines), Run(f, Text(lines) + part);
            if s.Bad? then r.1 == Error
            else
              var g := s.fields;
              && Sane(g) && g.state in {HeaderBegin, HeaderLineEnd}
              && r.1 == (if g.counted then if g.length == 0 then End else More else if g.chunked then Error else More)
              && (r.1 == More ==> r.0 == Begun(g, part))
  {
    hide Fold, Text, FieldLine, Headers, Blank;
    var text, s := Text(lines) + part, Fold(Opened(f), lines);
    LinesThen(Opened(f), lines, part);
    HeadersSane(Opened(f), text);
    HeaderStays(Opened(f), lines);
    if s.Scan? {
      LineBegun(s.fields, part);
      assert text[|text|..] == [];
    }
  }

  lemma {:induction false} HeaderStays(f: Fields, lines: seq<seq<byte>>)
    requires f.state in {HeaderBegin, HeaderLineEnd} && f.length >= 0
    ensures var s := Fold(f, lines);
            s.Scan? ==> s.fields.state in {HeaderBegin, HeaderLineEnd} && s.fields.length >= 0
    decreases |lines|
  {
    if lines != [] {
      var s := HeaderLine(f, lines[0], []);
      if s.Scan? { HeaderStays(s.fields.(state := HeaderLineEnd), lines[1..]); }
    }
  }

  /** Where the parser goes on between two lines it has what they say. */
  lemma BetweenLines(f: Fields, lines: seq<seq<byte>>)
    requires Sane(f) && InHeader(f.state) && (forall l :: l in lines ==> FieldLine(l))
    requires Run(f, Text(lines)).1 == More
    ensures var s, g := Fold(Opened(f), lines), Run(f, Text(lines)).0;
            && s.Scan? && s.fields == g && Sane(g) && g.state in {HeaderBegin, HeaderLineEnd}
            && (lines != [] ==> g.state == HeaderLineEnd)
  {
    assert Text(lines) + [] == Text(lines);
    hide Run, Text, FieldLine;
    CutVerdict(f, lines, []);
    FoldEnds(Opened(f), lines);
  }

  /** Where the header lines of `rest` are those of a longer text, so is all of the segment. */
  lemma RunLater(f: Fields, g: Fields, before: seq<byte>, rest: seq<byte>)
    requires Sane(f) && InHeader(f.state) && Sane(g) && InHeader(g.state)
    requires Headers(Opened(f), before + rest) == Shift(Headers(Opened(g), rest), |before|)
    ensures var r, whole := Run(g, rest), Run(f, before + rest);
            r.1 == whole.1 && (r.1 != Error ==> r == whole)
  {
    hide Headers, Body;
    HeadersSane(Opened(g), rest);
    HeadersSane(Opened(f), before + rest);
    var t := Headers(Opened(g), rest);
    if t.Scan? { assert (before + rest)[|before| + t.len..] == rest[t.len..]; }
  }

  /** A cut between two lines makes no difference if the parser goes on there. */
  lemma CutBetweenLines(f: Fields, lines: seq<seq<byte>>, rest: seq<byte>)
    requires Sane(f) && InHeader(f.state) && (forall l :: l in lines ==> FieldLine(l))
    requires Run(f, Text(lines)).1 == More
    ensures var r, whole := Run(Run(f, Text(lines)).0, rest), Run(f, Text(lines) + rest);
            r.1 == whole.1 && (r.1 != Error ==> r == whole)
  {
    hide Run, Fold, Text, FieldLine, Headers;
    BetweenLines(f, lines);
    LinesThen(Opened(f), lines, rest);
    RunLater(f, Fold(Opened(f), lines).fields, Text(lines), rest);
  }

  lemma OtherLetters(c: byte)
    ensures Among(c, "hH") ==> !Among(c, "nN")
    ensures Among(c, "gG") ==> !Among(c, "nN") && !Among(c, "hH")
  {
  }

  lemma FirstLetter(c: byte)
    ensures Among(c, "Cc") || Among(c, "Tt") ==> c !in {CR, LF, COLON}
  {
  }

  /** The rest of a framing line that was cut: its name is no longer one the parser knows,
      unless what follows the name holds another colon. */
  lemma RestSaysNothing(f: Fields, l: seq<byte>, c: nat, after: seq<byte>)
    requires (LengthLine(l) || CodingLine(l)) && 0 < c < |l| && COLON !in l[NameLen(l)..]
    ensures HeaderLine(f, l[c..], after) == Scan(f, |l| - c)
  {
    hide LengthLine, CodingLine, ConnectionLine, Atol, IsK, NameLen;
    RestNotNamed(l, c);
  }

  lemma RestNotNamed(l: seq<byte>, c: nat)
    requires (LengthLine(l) || CodingLine(l)) && 0 < c < |l| && COLON !in l[NameLen(l)..]
    ensures !LengthLine(l[c..]) && !CodingLine(l[c..]) && !ConnectionLine(l[c..])
  {
    hide NameLen, Among;
    var n, m := NameLen(l), NameLen(l[c..]);
    NameOfRest(l, c);
    OtherLetters(l[n - 2]);
    if m in {11, 15} { assert l[c..][m - 2] == l[n - 2]; }
  }

  lemma {:induction false} NameOfRest(l: seq<byte>, c: nat)
    requires c <= |l| && NameLen(l) > 0 && COLON !in l[NameLen(l)..]
    ensures NameLen(l[c..]) == if c < NameLen(l) then NameLen(l) - c else 0
    decreases c
  {
    if c == 0 {
      assert l[0..] == l;
    } else {
      assert l[c..] == l[1..][c - 1..];
      if NameLen(l[1..]) > 0 {
        assert l[NameLen(l)..] == l[1..][NameLen(l) - 1..];
        NameOfRest(l[1..], c - 1);
      } else {
        NoColon(l[c..]);
        assert forall x :: x in l[c..] ==> x in l[1..];
      }
    }
  }

  lemma {:induction false} NoColon(text: seq<byte>)
    ensures COLON !in text ==> NameLen(text) == 0
    decreases |text|
  {
    if text != [] { NoColon(text[1..]); }
  }

  /** A framing line cut in two is lost: what follows is read as if the line had not been there. */
  lemma CutLineIsLost(f: Fields, lines: seq<seq<byte>>, l: seq<byte>, c: nat, rest: seq<byte>)
    requires Sane(f) && InHeader(f.state) && lines != [] && (forall x :: x in lines ==> FieldLine(x))
    requires Line(l) && (LengthLine(l) || CodingLine(l)) && 0 < c < |l| && COLON !in l[NameLen(l)..]
    requires Run(f, Text(lines)).1 == More
    ensures var (g, v) := Run(f, Text(lines) + l[..c]);
            var r, without := Run(g, l[c..] + rest), Run(Run(f, Text(lines)).0, rest);
            v == More && r.1 == without.1 && (r.1 != Error ==> r == without)
  {
    BetweenLines(f, lines);
    RestOfLine(l, c);
    CutVerdict(f, lines, l[..c]);
    CutVerdict(f, lines, []);
    assert Text(lines) + [] == Text(lines);
    hide Run, Fold, Text, FieldLine, Line, LengthLine, CodingLine, Headers, Blank;
    var s := Fold(Opened(f), lines).fields;
    SkipsRest(s, l, c, rest);
    RunLater(Begun(s, l[..c]), s, l[c..], rest);
  }

  lemma SkipsRest(s: Fields, l: seq<byte>, c: nat, rest: seq<byte>)
    requires Line(l) && (LengthLine(l) || CodingLine(l)) && 0 < c < |l| && COLON !in l[NameLen(l)..]
    requires s.state == HeaderLineEnd
    ensures Headers(s.(state := HeaderBegin), l[c..] + rest) == Shift(Headers(s, rest), |l| - c)
  {
    RestOfLine(l, c);
    RestSaysNothing(s.(state := HeaderBegin), l, c, rest);
    hide Headers, Line, LengthLine, CodingLine, HeaderLine, Blank;
    assert (l[c..] + rest)[..|l| - c] == l[c..] && (l[c..] + rest)[|l| - c..] == rest;
    OneLine(s.(state := HeaderBegin), l[c..] + rest, |l| - c);
  }

  lemma RestOfLine(l: seq<byte>, c: nat)
    requires Line(l) && (LengthLine(l) || CodingLine(l)) && 0 < c < |l|
    ensures LF !in l[..c] && !Blank(l[..c]) && Line(l[c..])
  {
    FirstLetter(l[0]);
    assert l[..c][0] == l[0];
    assert l[c..][..|l| - c - 1] == l[c..|l| - 1];
    forall i | c <= i < |l| - 1 ensures l[i] in l[..|l| - 1] { assert l[..|l| - 1][i] == l[i]; }
  }

  // ---------------------------------------------------------------- a lost framing line

  lemma {:induction false} TextAppend(a: seq<seq<byte>>, b: seq<seq<byte>>)
    ensures Text(a + b) == Text(a) + Text(b)
    decreases |a|
  {
    if a == [] {
      assert a + b == b;
    } else {
      assert (a + b)[1..] == a[1..] + b;
      TextAppend(a[1..], b);
    }
  }

  /** Lines without framing are read through, and the response then goes on for ever. */
  lemma NoFraming(alive: bool, lines: seq<seq<byte>>)
    requires !Says(lines, LengthLine) && !Says(lines, ChunkedLine)
    ensures var s := Fold(Opened(Anew(alive)), lines);
            s.Scan? && !s.fields.counted && !s.fields.chunked
  {
    FramingIff(Opened(Anew(alive)), lines);
    assert Says(lines, Negative) ==> Says(lines, LengthLine);
  }

  lemma FewerLines(before: seq<seq<byte>>, after: seq<seq<byte>>, p: seq<byte> -> bool)
    requires !Says(before + after, p)
    ensures !Says(before, p)
  {
    forall l | l in before ensures !p(l) { assert l in before + after; }
  }

  /** Read to the end of the block without framing, whatever body follows. */
  lemma GoesOn(alive: bool, lines: seq<seq<byte>>, end: seq<byte>, body: seq<byte>)
    requires Block(lines, end) && !Says(lines, LengthLine) && !Says(lines, ChunkedLine)
    ensures var (g, v) := Run(Anew(alive), Text(lines) + end + body);
            v == More && !InHeader(g.state) && !g.counted && !g.chunked
  {
    NoFraming(alive, lines);
    BlockRun(alive, lines, end, body);
    hide Fold, Text, Block, Says;
  }

  /** A response whose one framing line is cut in two is never seen to end, whatever comes;
      in one segment it is. */
  lemma CutResponseGoesOn(alive: bool, m: Response, before: seq<seq<byte>>, l: seq<byte>, after: seq<seq<byte>>, c: nat,
                          more: seq<seq<byte>>)
    requires ValidResponse(m) && m.lines == before + [l] + after && before != []
    requires LengthLine(l) || ChunkedLine(l)
    requires !Says(before + after, LengthLine) && !Says(before + after, ChunkedLine)
    requires 0 < c < |l| && COLON !in l[NameLen(l)..]
    ensures EndsWith(alive, [Text(m.lines) + m.end + BodyText(m)])
    ensures var cut := [Text(before) + l[..c], l[c..] + (Text(after) + m.end + BodyText(m))];
            RunSegments(Anew(alive), cut + more).1 == More
  {
    WholeEnds(alive, m);
    var f, rest := Anew(alive), Text(after) + m.end + BodyText(m);
    var a, b := Text(before) + l[..c], l[c..] + rest;
    assert l in m.lines && (forall x :: x in before || x in after ==> x in m.lines);
    hide ValidResponse, BodyText, EndsWith, Says, LengthLine, ChunkedLine, FieldLine, Run, Text, Blank;
    var g, h := CutRunGoesOn(alive, before, l, after, m.end, BodyText(m), c);
    TwoThen(f, g, h, a, b, more);
    if more != [] { BodySegments(h, more); }
  }

  /** The two segments of the block, and the body with the second. */
  lemma CutRunGoesOn(alive: bool, before: seq<seq<byte>>, l: seq<byte>, after: seq<seq<byte>>, end: seq<byte>,
                     body: seq<byte>, c: nat) returns (g: Fields, h: Fields)
    requires before != [] && Block(before + [l] + after, end) && (LengthLine(l) || ChunkedLine(l))
    requires !Says(before + after, LengthLine) && !Says(before + after, ChunkedLine)
    requires 0 < c < |l| && COLON !in l[NameLen(l)..]
    ensures Run(Anew(alive), Text(before) + l[..c]) == (g, More) && Sane(g)
    ensures Run(g, l[c..] + (Text(after) + end + body)) == (h, More) && Sane(h)
    ensures !InHeader(h.state) && !h.counted && !h.chunked
  {
    Without(before, l, after, end);
    hide Fold, Says, Block, LengthLine, ChunkedLine, CodingLine, FieldLine, Run, Blank, Line, Text, NameLen;
    var rest := Text(after) + end + body;
    WholeGoesOn(alive, before, after, end, body);
    BeforeGoesOn(alive, before);
    CutLineIsLost(Anew(alive), before, l, c, rest);
    CutBetweenLines(Anew(alive), before, rest);
    g := Run(Anew(alive), Text(before) + l[..c]).0;
    h := Run(g, l[c..] + rest).0;
  }

  lemma WholeGoesOn(alive: bool, before: seq<seq<byte>>, after: seq<seq<byte>>, end: seq<byte>, body: seq<byte>)
    requires Block(before + after, end) && !Says(before + after, LengthLine) && !Says(before + after, ChunkedLine)
    ensures var (g, v) := Run(Anew(alive), Text(before) + (Text(after) + end + body));
            v == More && !InHeader(g.state) && !g.counted && !g.chunked
  {
    hide Says, Block, Run, Text;
    GoesOn(alive, before + after, end, body);
    TextAppend(before, after);
    assert Text(before) + (Text(after) + end + body) == Text(before) + Text(after) + end + body;
  }

  lemma Without(before: seq<seq<byte>>, l: seq<byte>, after: seq<seq<byte>>, end: seq<byte>)
    requires before != [] && Block(before + [l] + after, end) && (LengthLine(l) || ChunkedLine(l))
    requires !Says(before + after, LengthLine) && !Says(before + after, ChunkedLine)
    ensures Block(before + after, end) && (forall x :: x in before ==> FieldLine(x)) && Line(l)
    ensures LengthLine(l) || CodingLine(l)
    ensures !Says(before, LengthLine) && !Says(before, ChunkedLine)
  {
    hide LengthLine, CodingLine, Blank, Line;
    assert l in before + [l] + after;
    assert forall x :: x in before || x in after ==> x in before + [l] + after;
    FewerLines(before, after, LengthLine);
    FewerLines(before, after, ChunkedLine);
  }

  lemma BeforeGoesOn(alive: bool, lines: seq<seq<byte>>)
    requires (forall l :: l in lines ==> FieldLine(l)) && !Says(lines, LengthLine) && !Says(lines, ChunkedLine)
    ensures Run(Anew(alive), Text(lines)).1 == More
  {
    NoFraming(alive, lines);
    hide Fold, Says, FieldLine, Run, Text;
    assert Text(lines) + [] == Text(lines);
    CutVerdict(Anew(alive), lines, []);
  }

  lemma WholeEnds(alive: bool, m: Response)
    requires ValidResponse(m)
    ensures EndsWith(alive, [Text(m.lines) + m.end + BodyText(m)])
  {
    hide BodyText, EndsWith, Text;
    var whole := Text(m.lines) + m.end + BodyText(m);
    assert Concat([whole]) == whole;
    assert m.end != [] && whole != [];
    ResponseEnds(alive, m, [whole]);
  }

  lemma TwoThen(f: Fields, g: Fields, h: Fields, a: seq<byte>, b: seq<byte>, more: seq<seq<byte>>)
    requires Sane(f) && Run(f, a) == (g, More) && Sane(g) && Run(g, b) == (h, More) && Sane(h)
    ensures RunSegments(f, [a, b] + more) == RunSegments(h, more)
  {
    hide Run;
    assert ([a, b] + more)[1..] == [b] + more && ([b] + more)[1..] == more;
  }

  // ---------------------------------------------------------------- any byte position

  /** What reading one line comes to: the block fails, ends, or goes on. */
  datatype Reading = Fails | Done(fields: Fields) | Goes(fields: Fields)

  function LineAfter(f: Fields, l: seq<byte>): Reading {
    if f.state != HeaderBegin && Blank(l) then Done(Ended(f))
    else
      var s := HeaderLine(f, l, []);
      if s.Bad? then Fails else Goes(s.fields.(state := HeaderLineEnd))
  }

  /** What the rest of the segment then comes to. */
  function Finish(o: Reading, rest: seq<byte>): (Fields, Verdict)
    requires o.Fails? || Sane(o.fields)
  {
    match o
    case Fails => (Anew(false), Error)
    case Done(g) => Body(g, rest)
    case Goes(g) => Run(g, rest)
  }

  /** The same verdict, and the same fields unless it is an error. */
  predicate Alike(r: (Fields, Verdict), q: (Fields, Verdict)) { r.1 == q.1 && (r.1 != Error ==> r == q) }

  /** A content length that is read from its own line. */
  predicate OwnValue(l: seq<byte>) { LengthLine(l) ==> exists i :: 15 <= i < |l| && !IsSpace(l[i]) }

  lemma OwnLine(f: Fields, l: seq<byte>, after: seq<byte>)
    requires Line(l) && OwnValue(l)
    ensures HeaderLine(f, l, after) == HeaderLine(f, l, [])
  {
    if LengthLine(l) {
      var i :| 15 <= i < |l| && !IsSpace(l[i]);
      assert !IsSpace(l[15..][i - 15]) && l[15..][|l| - 16] == LF;
      AtolStops(l[15..], after);
      AtolStops(l[15..], []);
    }
  }

  lemma LineAfterSane(f: Fields, l: seq<byte>)
    requires f.state in {HeaderBegin, HeaderLineEnd} && Sane(f)
    ensures var o := LineAfter(f, l);
            && (o.Done? ==> Sane(o.fields) && o.fields.state == HeaderDone)
            && (o.Goes? ==> Sane(o.fields) && o.fields.state == HeaderLineEnd)
  {
    hide Blank;
  }

  lemma LineThen(f: Fields, l: seq<byte>, rest: seq<byte>)
    requires f.state in {HeaderBegin, HeaderLineEnd} && Sane(f) && Line(l) && OwnValue(l)
    ensures var o := LineAfter(f, l);
            && (o.Fails? ==> Headers(f, l + rest) == Bad)
            && (o.Done? ==> Headers(f, l + rest) == Scan(o.fields, |l|))
            && (o.Goes? ==> Headers(f, l + rest) == Shift(Headers(o.fields, rest), |l|))
  {
    hide Headers, HeaderLine, Blank, OwnValue;
    OwnLine(f, l, rest);
    assert (l + rest)[..|l|] == l && (l + rest)[|l|..] == rest;
    OneLine(f, l + rest, |l|);
  }

  /** A segment that begins with a line. */
  lemma RunLine(f: Fields, l: seq<byte>, rest: seq<byte>)
    requires f.state in {HeaderBegin, HeaderLineEnd} && Sane(f) && Line(l) && OwnValue(l)
    ensures var o := LineAfter(f, l);
            (o.Fails? || Sane(o.fields)) && Alike(Run(f, l + rest), Finish(o, rest))
  {
    hide Headers, LineAfter, Line, OwnValue, Body;
    LineAfterSane(f, l);
    LineThen(f, l, rest);
    var o := LineAfter(f, l);
    if o.Goes? { RunLater(f, o.fields, l, rest); } else { assert (l + rest)[|l|..] == rest; }
  }

  /** The whole of it in one segment, behind lines read so far. */
  lemma WholeIs(f: Fields, lines: seq<seq<byte>>, l: seq<byte>, rest: seq<byte>)
    requires Sane(f) && InHeader(f.state) && (forall x :: x in lines ==> FieldLine(x)) && Line(l) && OwnValue(l)
    ensures var s, r := Fold(Opened(f), lines), Run(f, Text(lines) + (l + rest));
            if s.Bad? then r.1 == Error
            else
              var o := LineAfter(s.fields, l);
              && Sane(s.fields) && s.fields.state in {HeaderBegin, HeaderLineEnd}
              && (o.Fails? || Sane(o.fields)) && Alike(r, Finish(o, rest))
  {
    LinesThen(Opened(f), lines, l + rest);
    HeaderStays(Opened(f), lines);
    var s := Fold(Opened(f), lines);
    hide Fold, Text, FieldLine, Headers, LineAfter, Line, OwnValue, Finish, Body;
    if s.Scan? {
      RunLater(f, s.fields, Text(lines), l + rest);
      RunLine(s.fields, l, rest);
    }
  }

  /** The same with a cut behind `part`. */
  lemma CutIs(f: Fields, lines: seq<seq<byte>>, part: seq<byte>, tail: seq<byte>, rest: seq<byte>)
    requires Sane(f) && InHeader(f.state) && (forall x :: x in lines ==> FieldLine(x)) && LF !in part
    requires Line(tail) && OwnValue(tail)
    ensures var s, r := Fold(Opened(f), lines), RunSegments(f, [Text(lines) + part, tail + rest]);
            if s.Bad? then r.1 == Error
            else
              var g := s.fields;
              if g.counted && g.length == 0 then r.1 == End
              else if !g.counted && g.chunked then r.1 == Error
              else
                var o := LineAfter(Begun(g, part), tail);
                (o.Fails? || Sane(o.fields)) && Alike(r, Finish(o, rest))
  {
    CutVerdict(f, lines, part);
    var s, a := Fold(Opened(f), lines), Text(lines) + part;
    TwoSegments(f, a, tail + rest);
    hide Fold, Text, FieldLine, Headers, LineAfter, Line, OwnValue, Finish, Run, RunSegments, Blank;
    if s.Scan? && Run(f, a).1 == More { RunLine(Begun(s.fields, part), tail, rest); }
  }

  lemma TwoSegments(f: Fields, a: seq<byte>, b: seq<byte>)
    requires Sane(f)
    ensures RunSegments(f, [a, b]) == if Run(f, a).1 == More then Run(Run(f, a).0, b) else Run(f, a)
  {
    hide Run;
    assert [a, b][1..] == [b];
    if Run(f, a).1 == More { OneSegment(Run(f, a).0, b); }
  }

  lemma OneSegment(f: Fields, b: seq<byte>)
    requires Sane(f)
    ensures RunSegments(f, [b]) == Run(f, b)
  {
    hide Run;
    assert [b][1..] == [];
  }

  /** Whatever follows, the cut behind `a` makes no difference. */
  ghost predicate NoDifference(f: Fields, a: seq<byte>, tail: seq<byte>)
    requires Sane(f)
  {
    forall rest :: Alike(RunSegments(f, [a, tail + rest]), Run(f, a + (tail + rest)))
  }

  /** Behind lines that left `g`, the line says what its rest says. A length of 0 would end the
      response at the cut; the chunked coding would fail there, as the line then has to. */
  predicate Harmless(g: Fields, part: seq<byte>, tail: seq<byte>) {
    if g.counted && g.length == 0 then false
    else if !g.counted && g.chunked then LineAfter(g, part + tail).Fails?
    else LineAfter(g, part + tail) == LineAfter(Begun(g, part), tail)
  }

  /** A text that ends the block, and one that ends a body of length 0 as well. */
  const End0: seq<byte> := [CR, LF]

  lemma EndsBlock(g: Fields)
    requires Sane(g) && g.state == HeaderLineEnd
    ensures Run(g, End0) == Body(Ended(g), []) && Run(g, End0 + [0]) == Body(Ended(g), [0])
  {
    assert Blank(End0) && Line(End0) && !LengthLine(End0);
    assert (End0 + [0])[..2] == End0 && (End0 + [0])[2..] == [0] && End0[..2] == End0 && End0[2..] == [];
    OneLine(g, End0, 2);
    OneLine(g, End0 + [0], 2);
  }

  /** A line after which the parser goes on, when the cut ends the response. */
  lemma EndDiffers(g: Fields, o: Reading) returns (rest: seq<byte>)
    requires g.counted && g.length == 0
    requires o.Done? ==> Sane(o.fields) && o.fields.counted && o.fields.length == 0
    requires o.Goes? ==> Sane(o.fields) && o.fields.state == HeaderLineEnd && o.fields.counted
    ensures (o.Fails? || Sane(o.fields)) && Finish(o, rest).1 != End
  {
    match o {
      case Fails => rest := [];
      case Done(h) => rest := [0];
      case Goes(h) =>
        EndsBlock(h);
        rest := if h.length == 0 then End0 + [0] else End0;
    }
  }

  /** A line after which the parser goes on, when the cut fails. */
  lemma ErrorDiffers(o: Reading) returns (rest: seq<byte>)
    requires !o.Fails? && Sane(o.fields) && o.fields.state == if o.Done? then HeaderDone else HeaderLineEnd
    ensures Finish(o, rest).1 != Error
  {
    match o {
      case Done(h) => rest := [];
      case Goes(h) =>
        EndsBlock(h);
        rest := End0;
    }
  }

  /** Fields between lines; without a flag they are as they began. */
  predicate Between(g: Fields, h: Fields) {
    && Sane(h) && h.state == HeaderLineEnd && !h.auto
    && (!h.counted && !h.chunked && !h.close ==> h.length == g.length && h.keepalive == g.keepalive)
  }

  /** Two readings of a line tell apart at the end of the block. */
  lemma ReadingsDiffer(g: Fields, o: Reading, q: Reading) returns (rest: seq<byte>)
    requires o != q && !(o.Done? && q.Done?) && Sane(g) && !(g.counted && g.length == 0) && (g.counted || !g.chunked)
    requires (o.Done? ==> o.fields == Ended(g)) && (q.Done? ==> q.fields == Ended(g))
    requires (o.Goes? ==> Between(g, o.fields)) && (q.Goes? ==> Between(g, q.fields))
    ensures (o.Fails? || Sane(o.fields)) && (q.Fails? || Sane(q.fields)) && !Alike(Finish(o, rest), Finish(q, rest))
  {
    rest := if o.Done? || q.Done? then [] else End0;
    hide Run, Body, Ended, Between;
    if o.Done? { DoneIs(g); } else if o.Goes? { GoesIs(g, o.fields); }
    if q.Done? { DoneIs(g); } else if q.Goes? { GoesIs(g, q.fields); }
    if o.Goes? && q.Goes? { EndsDiffer(g, o.fields, q.fields); }
  }

  /** At the end of a block without a body of length 0 the parser goes on. */
  lemma DoneIs(g: Fields)
    requires Sane(g) && !(g.counted && g.length == 0) && (g.counted || !g.chunked)
    ensures Sane(Ended(g)) && Body(Ended(g), []) == (Ended(g), More) && Ended(g).state == HeaderDone
  {
  }

  /** Between two lines the parser is not at the end of a block, and the end of it is no error. */
  lemma GoesIs(g: Fields, h: Fields)
    requires Between(g, h)
    ensures Sane(h) && (Run(h, []).1 == More ==> Run(h, []).0.state != HeaderDone)
    ensures Sane(Ended(h)) && Run(h, End0) == Body(Ended(h), []) && Run(h, End0).1 != Error
  {
    hide Run;
    EndsBlock(h);
    HeaderOnly(h);
  }

  lemma EndsDiffer(g: Fields, h: Fields, k: Fields)
    requires Between(g, h) && Between(g, k) && h != k && Sane(Ended(h)) && Sane(Ended(k))
    ensures !Alike(Body(Ended(h), []), Body(Ended(k), []))
  {
  }

  lemma HeaderOnly(h: Fields)
    requires Sane(h) && h.state == HeaderLineEnd
    ensures Run(h, []) == Body(h, [])
  {
    LineBegun(h, []);
  }

  lemma ReadingIs(g: Fields, l: seq<byte>)
    requires Sane(g) && g.state in {HeaderBegin, HeaderLineEnd} && !g.auto && !(g.counted && g.chunked)
    ensures var o := LineAfter(g, l);
            && (o.Done? ==> o.fields == Ended(g))
            && (o.Goes? ==> Between(g, o.fields) && (g.counted ==> o.fields.counted))
  {
    hide Blank, LengthLine, ChunkedLine, CloseLine;
  }

  lemma FoldFields(f: Fields, lines: seq<seq<byte>>)
    requires f.state in {HeaderBegin, HeaderLineEnd} && f.length >= 0 && !f.auto && !(f.counted && f.chunked)
    ensures var s := Fold(f, lines);
            s.Scan? ==> Sane(s.fields) && s.fields.state in {HeaderBegin, HeaderLineEnd} && !s.fields.auto
                        && !(s.fields.counted && s.fields.chunked)
  {
    hide Fold, Says;
    HeaderStays(f, lines);
    FramingIff(f, lines);
  }

  /** A cut at any byte of a header block makes no difference, whatever follows, if and only
      if it is harmless: for that it is enough to look at the lines before it, the line it
      falls into, and the rest of that line. */
  lemma CutAnywhere(f: Fields, lines: seq<seq<byte>>, part: seq<byte>, tail: seq<byte>)
    requires Sane(f) && InHeader(f.state) && !f.auto && !(f.counted && f.chunked)
    requires (forall x :: x in lines ==> FieldLine(x)) && LF !in part && Line(tail)
    requires OwnValue(tail) && OwnValue(part + tail)
    ensures var s := Fold(Opened(f), lines);
            NoDifference(f, Text(lines) + part, tail) <==> s.Bad? || Harmless(s.fields, part, tail)
  {
    var s := Fold(Opened(f), lines);
    FoldFields(Opened(f), lines);
    WholeLine(part, tail);
    hide Fold, Text, FieldLine, Line, OwnValue, Run, RunSegments;
    if s.Bad? || Harmless(s.fields, part, tail) {
      forall rest ensures Alike(RunSegments(f, [Text(lines) + part, tail + rest]),
                                Run(f, Text(lines) + part + (tail + rest)))
      {
        HarmlessHolds(f, lines, part, tail, rest);
      }
    } else {
      var rest := Differs(f, lines, part, tail);
      assert !Alike(RunSegments(f, [Text(lines) + part, tail + rest]), Run(f, Text(lines) + part + (tail + rest)));
    }
  }

  lemma WholeLine(part: seq<byte>, tail: seq<byte>)
    requires LF !in part && Line(tail)
    ensures Line(part + tail)
  {
    assert (part + tail)[..|part + tail| - 1] == part + tail[..|tail| - 1];
  }

  /** Both ways of reading it, for one continuation. */
  lemma BothWays(f: Fields, lines: seq<seq<byte>>, part: seq<byte>, tail: seq<byte>, rest: seq<byte>)
    requires Sane(f) && InHeader(f.state) && (forall x :: x in lines ==> FieldLine(x)) && LF !in part
    requires Line(tail) && OwnValue(tail) && OwnValue(part + tail)
    ensures var s := Fold(Opened(f), lines);
            var r := RunSegments(f, [Text(lines) + part, tail + rest]);
            var whole := Run(f, Text(lines) + part + (tail + rest));
            if s.Bad? then r.1 == Error && whole.1 == Error
            else
              var g := s.fields;
              var o := LineAfter(g, part + tail);
              && (o.Fails? || Sane(o.fields)) && Alike(whole, Finish(o, rest))
              && if g.counted && g.length == 0 then r.1 == End
                 else if !g.counted && g.chunked then r.1 == Error
                 else
                   var q := LineAfter(Begun(g, part), tail);
                   (q.Fails? || Sane(q.fields)) && Alike(r, Finish(q, rest))
  {
    hide Fold, Text, FieldLine, Line, OwnValue, Run, RunSegments, LineAfter, Finish, Alike, Sane, Begun;
    WholeLine(part, tail);
    Regroup(Text(lines), part, tail, rest);
    WholeIs(f, lines, part + tail, rest);
    CutIs(f, lines, part, tail, rest);
  }

  lemma Regroup(a: seq<byte>, b: seq<byte>, c: seq<byte>, d: seq<byte>)
    ensures a + b + (c + d) == a + (b + c + d)
  {
  }

  lemma HarmlessHolds(f: Fields, lines: seq<seq<byte>>, part: seq<byte>, tail: seq<byte>, rest: seq<byte>)
    requires Sane(f) && InHeader(f.state) && (forall x :: x in lines ==> FieldLine(x)) && LF !in part
    requires Line(tail) && OwnValue(tail) && OwnValue(part + tail)
    requires var s := Fold(Opened(f), lines); s.Bad? || Harmless(s.fields, part, tail)
    ensures Alike(RunSegments(f, [Text(lines) + part, tail + rest]), Run(f, Text(lines) + part + (tail + rest)))
  {
    hide Fold, Text, FieldLine, Line, OwnValue, Run, RunSegments, LineAfter, Sane, Begun;
    BothWays(f, lines, part, tail, rest);
  }

  lemma Differs(f: Fields, lines: seq<seq<byte>>, part: seq<byte>, tail: seq<byte>) returns (rest: seq<byte>)
    requires Sane(f) && InHeader(f.state) && (forall x :: x in lines ==> FieldLine(x)) && LF !in part
    requires Line(tail) && OwnValue(tail) && OwnValue(part + tail)
    requires !f.auto && !(f.counted && f.chunked)
    requires var s := Fold(Opened(f), lines); s.Scan? && !Harmless(s.fields, part, tail)
    ensures !Alike(RunSegments(f, [Text(lines) + part, tail + rest]), Run(f, Text(lines) + part + (tail + rest)))
  {
    var g := Fold(Opened(f), lines).fields;
    FoldFields(Opened(f), lines);
    ReadingIs(g, part + tail);
    ReadingIs(Begun(g, part), tail);
    LineAfterSane(g, part + tail);
    LineAfterSane(Begun(g, part), tail);
    hide Fold, Text, FieldLine, Line, OwnValue, Run, RunSegments, LineAfter, Finish, Blank;
    var o, q := LineAfter(g, part + tail), LineAfter(Begun(g, part), tail);
    if g.counted && g.length == 0 {
      rest := EndDiffers(g, o);
    } else if !g.counted && g.chunked {
      rest := ErrorDiffers(o);
    } else {
      EndsAlike(g, part, tail);
      rest := ReadingsDiffer(g, o, q);
    }
    BothWays(f, lines, part, tail, rest);
  }

  lemma EndsAlike(g: Fields, part: seq<byte>, tail: seq<byte>)
    ensures LineAfter(Begun(g, part), tail).Done? ==> LineAfter(Begun(g, part), tail) == Done(Ended(g))
    ensures LineAfter(g, part + tail).Done? ==> LineAfter(g, part + tail) == Done(Ended(g))
    ensures Begun(g, part) == g || Begun(g, part) == g.(state := HeaderBegin)
  {
    hide Blank;
  }

  /** So a line that is no field of its own can become one behind a cut: where no length was
      given before it, a cut in front of a content length always makes a difference. */
  lemma RestBecomesLength(f: Fields, lines: seq<seq<byte>>, part: seq<byte>, tail: seq<byte>)
    requires Sane(f) && InHeader(f.state) && !f.auto && !f.counted && !f.chunked
    requires (forall x :: x in lines ==> FieldLine(x)) && !Says(lines, LengthLine)
    requires part != [] && LF !in part && COLON !in part && Line(tail) && LengthLine(tail) && OwnValue(tail)
    ensures !NoDifference(f, Text(lines) + part, tail)
  {
    hide Fold, Text, FieldLine, Line, LengthLine, ChunkedLine, NameLen, Harmless, NoDifference, OwnValue;
    NoLengthBefore(Opened(f), lines);
    OwnWhole(part, tail);
    CutAnywhere(f, lines, part, tail);
    PrefixHarms(Fold(Opened(f), lines).fields, part, tail);
  }

  lemma NoLengthBefore(f: Fields, lines: seq<seq<byte>>)
    requires !Says(lines, LengthLine) && !f.counted && !f.chunked
    ensures Fold(f, lines).Scan? && !Fold(f, lines).fields.counted
  {
    hide Fold;
    FramingIff(f, lines);
    assert Says(lines, Negative) ==> Says(lines, LengthLine);
  }

  lemma OwnWhole(part: seq<byte>, tail: seq<byte>)
    requires part != [] && COLON !in part && LengthLine(tail)
    ensures OwnValue(part + tail) && !LengthLine(part + tail) && !CodingLine(part + tail)
  {
    hide NameLen, Among;
    NameBehind(part, tail);
    OtherLetters(tail[13]);
    assert (part + tail)[|part| + 13] == tail[13];
  }

  lemma PrefixHarms(g: Fields, part: seq<byte>, tail: seq<byte>)
    requires !g.counted && part != [] && COLON !in part && LengthLine(tail)
    ensures !Harmless(g, part, tail)
  {
    OwnWhole(part, tail);
    NotBlank(tail);
    hide LengthLine, CodingLine, ConnectionLine, Blank, Atol;
  }

  /** A line that has a name is not blank, behind any text. */
  lemma NotBlank(tail: seq<byte>)
    requires LengthLine(tail)
    ensures !Blank(tail)
  {
    FirstLetter(tail[0]);
  }

  lemma {:induction false} NameBehind(part: seq<byte>, tail: seq<byte>)
    requires COLON !in part && NameLen(tail) > 0
    ensures NameLen(part + tail) == |part| + NameLen(tail)
    decreases |part|
  {
    if part == [] {
      assert part + tail == tail;
    } else {
      assert (part + tail)[1..] == part[1..] + tail;
      NameBehind(part[1..], tail);
    }
  }
}
