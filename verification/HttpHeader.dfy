/** The header block of an HTTP response: what its lines say, a reference that reads it
    line by line, and what becomes of a block that is cut into segments. */
module HttpHeader {
  type byte = x: int | 0 <= x < 256

  const CR: byte := 13
  const LF: byte := 10
  const COLON: byte := 58

  datatype State =
    | Init | HeaderBegin | HeaderLineEnd | HeaderDone
    | ChunkSize | ChunkSizeEnd | ChunkData | ChunkDataEnd
    | TrailerBegin | Trailer | ChunkEnd | BodyDone

  /** The fields of the socket that the parser sets: http_parse_state, http_length (-1 when
      the response ends with the connection), the four bits of http_flags, and keepalive. */
  datatype Fields = Fields(state: State, length: int, auto: bool, counted: bool, chunked: bool, close: bool,
                           keepalive: bool)

  predicate InHeader(s: State) { s in {Init, HeaderBegin, HeaderLineEnd} }

  predicate Sane(f: Fields) { f.length >= 0 || !(f.counted || f.chunked || InHeader(f.state)) }

  /** As socket_init_http leaves them. */
  function Anew(keepalive: bool): Fields { Fields(Init, 0, false, false, false, false, keepalive) }

  // ---------------------------------------------------------------- one line

  /** Length of the field name with its colon; 0 without one. */
  function NameLen(line: seq<byte>): (n: nat)
    ensures n <= |line| && (n > 0 ==> line[n - 1] == COLON)
    decreases |line|
  {
    if line == [] then 0
    else if line[0] == COLON then 1
    else var n := NameLen(line[1..]); if n == 0 then 0 else n + 1
  }

  lemma {:induction false} NameLenAppend(line: seq<byte>, c: byte)
    ensures NameLen(line + [c])
         == if NameLen(line) != 0 then NameLen(line) else if c == COLON then |line| + 1 else 0
    decreases |line|
  {
    if line == [] {
      assert (line + [c])[1..] == [];
    } else {
      assert (line + [c])[1..] == line[1..] + [c];
      NameLenAppend(line[1..], c);
    }
  }

  /** http_header_match: the length of the name, its first and its last letter. */
  predicate Match(line: seq<byte>, nameLen: nat, size: nat, first: string, last: string)
    requires 2 <= size && nameLen <= |line|
  {
    nameLen == size && Among(line[0], first) && Among(line[size - 2], last)
  }

  predicate Among(c: byte, letters: string) { exists i :: 0 <= i < |letters| && c == letters[i] as int }

  /** Content-Length, Transfer-Encoding and Connection. */
  predicate LengthLine(line: seq<byte>) { Match(line, NameLen(line), 15, "Cc", "hH") }

  predicate CodingLine(line: seq<byte>) { Match(line, NameLen(line), 18, "Tt", "gG") }

  predicate ConnectionLine(line: seq<byte>) { Match(line, NameLen(line), 11, "Cc", "nN") }

  predicate IsK(c: byte) { Among(c, "kK") }

  /** A coding with a k in it is taken for chunked. */
  predicate ChunkedLine(line: seq<byte>) { CodingLine(line) && exists i :: 18 <= i < |line| && IsK(line[i]) }

  /** A connection option too short for keep-alive is taken for close. */
  predicate CloseLine(line: seq<byte>) { ConnectionLine(line) && |line| < 11 + 10 + 1 }

  predicate IsSpace(c: byte) { 9 <= c <= 13 || c == 32 }

  predicate IsDigit(c: byte) { 48 <= c <= 57 }

  function Digits(acc: nat, text: seq<byte>): nat
    decreases |text|
  {
    if text == [] || !IsDigit(text[0]) then acc else Digits(acc * 10 + text[0] - 48, text[1..])
  }

  /** The C library's atol, which skips white space, line ends included. */
  function Atol(text: seq<byte>): int
    decreases |text|
  {
    if text == [] then 0
    else if IsSpace(text[0]) then Atol(text[1..])
    else if text[0] == 45 then 0 - Digits(0, text[1..])
    else if text[0] == 43 then Digits(0, text[1..])
    else Digits(0, text)
  }

  datatype Scan = Bad | Scan(fields: Fields, len: nat)

  /** What one line says; `after` is the text behind it, which atol may read on into. */
  function HeaderLine(f: Fields, line: seq<byte>, after: seq<byte>): Scan {
    if LengthLine(line) then
      var n := Atol(line[15..] + after);
      if n < 0 || f.chunked then Bad else Scan(f.(length := n, counted := true), |line|)
    else if ChunkedLine(line) then
      if f.counted then Bad else Scan(f.(chunked := true), |line|)
    else if CloseLine(line) then Scan(f.(close := true, keepalive := false), |line|)
    else Scan(f, |line|)
  }

  /** The state has no part in it. */
  lemma LineIgnoresState(f: Fields, state: State, line: seq<byte>, after: seq<byte>)
    ensures HeaderLine(f.(state := state), line, after)
         == var s := HeaderLine(f, line, after);
            if s.Bad? then Bad else s.(fields := s.fields.(state := state))
  {
  }

  // ---------------------------------------------------------------- the block, line by line

  /** Length of the first line with its LF; 0 when no LF has arrived. */
  function LineLen(text: seq<byte>): (n: nat)
    ensures n <= |text| && (n > 0 ==> text[n - 1] == LF && LF !in text[..n - 1]) && (n == 0 ==> LF !in text)
    decreases |text|
  {
    if text == [] then 0
    else if text[0] == LF then 1
    else var n := LineLen(text[1..]); if n == 0 then 0 else n + 1
  }

  lemma {:induction false} LineLenIs(text: seq<byte>, n: nat)
    requires 0 < n <= |text| && text[n - 1] == LF && LF !in text[..n - 1]
    ensures LineLen(text) == n
    decreases |text|
  {
    if n > 1 {
      assert text[..n - 1][0] == text[0] && text[..n - 1][1..] == text[1..][..n - 2];
      LineLenIs(text[1..], n - 1);
    }
  }

  predicate Line(l: seq<byte>) { l != [] && l[|l| - 1] == LF && LF !in l[..|l| - 1] }

  /** Nothing but CR, its LF, and one colon, which the loop takes for the end of a name first. */
  predicate Blank(line: seq<byte>) {
    forall i :: 0 <= i < |line| ==> line[i] in {CR, LF} || (line[i] == COLON && NameLen(line) == i + 1)
  }

  lemma BlankAppend(line: seq<byte>, c: byte)
    ensures Blank(line + [c]) <==> Blank(line) && (c in {CR, LF} || (c == COLON && NameLen(line) == 0))
  {
    NameLenAppend(line, c);
    var l := line + [c];
    assert l[|line|] == c;
    if Blank(l) {
      forall i | 0 <= i < |line|
        ensures line[i] in {CR, LF} || (line[i] == COLON && NameLen(line) == i + 1)
      {
        assert l[i] == line[i];
      }
    }
  }

  /** The end of the block; without any of the flags the response ends with the connection. */
  function Ended(f: Fields): Fields {
    if f.auto || f.counted || f.chunked || f.close then f.(state := HeaderDone)
    else f.(state := HeaderDone, auto := true, close := true, length := -1, keepalive := false)
  }

  /** A line that has begun. */
  function Begun(f: Fields, part: seq<byte>): Fields {
    if Blank(part) then f else f.(state := HeaderBegin)
  }

  function Shift(s: Scan, n: nat): Scan { if s.Bad? then Bad else s.(len := s.len + n) }

  lemma NoShift(s: Scan)
    ensures Shift(s, 0) == s
  {
  }

  lemma ShiftScan(f: Fields, len: nat, n: nat)
    ensures Shift(Scan(f, len), n) == Scan(f, n + len)
  {
  }

  /** http_parse_headers by lines: a blank one ends the block, but not as its first line. */
  function Headers(f: Fields, text: seq<byte>): (s: Scan)
    ensures s.Scan? ==> s.len <= |text|
    decreases |text|
  {
    var n := LineLen(text);
    if n == 0 then Scan(Begun(f, text), |text|)
    else if f.state != HeaderBegin && Blank(text[..n]) then Scan(Ended(f), n)
    else
      var s := HeaderLine(f, text[..n], text[n..]);
      if s.Bad? then Bad else Shift(Headers(s.fields.(state := HeaderLineEnd), text[n..]), n)
  }

  /** One line of the block, after which it ends or goes on. */
  lemma OneLine(f: Fields, text: seq<byte>, n: nat)
    requires 0 < n <= |text| && Line(text[..n])
    ensures Headers(f, text)
         == if f.state != HeaderBegin && Blank(text[..n]) then Scan(Ended(f), n)
            else
              var s := HeaderLine(f, text[..n], text[n..]);
              if s.Bad? then Bad else Shift(Headers(s.fields.(state := HeaderLineEnd), text[n..]), n)
  {
    assert text[..n][..n - 1] == text[..n - 1];
    LineLenIs(text, n);
  }

  /** The same of a line that began at `start`, in the fields as its bytes have left them. */
  lemma LineTaken(f: Fields, part: seq<byte>, text: seq<byte>, start: nat)
    requires LF !in part && |part| < |text| && text[..|part| + 1] == part + [LF]
    ensures var g, n := Begun(f, part), |part| + 1;
            Shift(Headers(f, text), start)
            == if g.state != HeaderBegin then Scan(Ended(g), start + n)
               else
                 var s := HeaderLine(g, text[..n], text[n..]);
                 if s.Bad? then Bad else Shift(Headers(s.fields.(state := HeaderLineEnd), text[n..]), start + n)
  {
    hide Headers, HeaderLine, NameLen, Blank;
    OneLine(f, text, |part| + 1);
    BlankAppend(part, LF);
    LineIgnoresState(f, HeaderBegin, part + [LF], text[|part| + 1..]);
  }

  lemma LineBegun(f: Fields, text: seq<byte>)
    requires LF !in text
    ensures Headers(f, text) == Scan(Begun(f, text), |text|)
  {
  }

  lemma {:induction false} HeadersSane(f: Fields, text: seq<byte>)
    requires InHeader(f.state) && f.length >= 0
    ensures var s := Headers(f, text);
            s.Scan? ==> Sane(s.fields) && (InHeader(s.fields.state) || s.fields.state == HeaderDone)
    decreases |text|
  {
    var n := LineLen(text);
    if n > 0 && !(f.state != HeaderBegin && Blank(text[..n])) {
      var s := HeaderLine(f, text[..n], text[n..]);
      if s.Scan? { HeadersSane(s.fields.(state := HeaderLineEnd), text[n..]); }
    }
  }

  // ---------------------------------------------------------------- byte by byte

  lemma LineAt(data: seq<byte>, start: nat, n: nat)
    requires 0 < n && start + n <= |data| && Line(data[start..start + n])
    ensures var part, text := data[start..start + n - 1], data[start..];
            LF !in part && text[..n] == data[start..start + n] == part + [LF] && text[n..] == data[start + n..]
  {
    assert data[start..start + n - 1] == data[start..start + n][..n - 1];
  }

  lemma NothingYet()
    ensures NameLen([]) == 0 && Blank([])
  {
  }

  lemma NextByte(data: seq<byte>, start: nat, p: nat)
    requires start <= p < |data| && LF !in data[start..p]
    ensures var part, c := data[start..p], data[p];
            && data[start..p + 1] == part + [c] && data[p + 1..p + 1] == []
            && (Blank(part + [c]) <==> Blank(part) && (c in {CR, LF} || (c == COLON && NameLen(part) == 0)))
            && NameLen(part + [c])
               == (if NameLen(part) != 0 then NameLen(part) else if c == COLON then |part| + 1 else 0)
            && (if c == LF then Line(part + [c]) else LF !in part + [c])
  {
    NameLenAppend(data[start..p], data[p]);
    BlankAppend(data[start..p], data[p]);
    assert (data[start..p] + [data[p]])[..p - start] == data[start..p];
  }

  // ---------------------------------------------------------------- printed blocks

  /** A line of a block: not blank, and a content length has a value in its own line. */
  predicate FieldLine(l: seq<byte>) {
    Line(l) && !Blank(l) && (LengthLine(l) ==> exists i :: 15 <= i < |l| && !IsSpace(l[i]))
  }

  function Text(lines: seq<seq<byte>>): seq<byte> {
    if lines == [] then [] else lines[0] + Text(lines[1..])
  }

  function Value(l: seq<byte>): int
    requires LengthLine(l)
  {
    Atol(l[15..])
  }

  /** The lines one after another. */
  function Fold(f: Fields, lines: seq<seq<byte>>): Scan
    decreases |lines|
  {
    if lines == [] then Scan(f, 0)
    else
      var s := HeaderLine(f, lines[0], []);
      if s.Bad? then Bad else Shift(Fold(s.fields.(state := HeaderLineEnd), lines[1..]), |lines[0]|)
  }

  lemma {:induction false} DigitsStop(acc: nat, a: seq<byte>, b: seq<byte>)
    requires LF in a
    ensures Digits(acc, a + b) == Digits(acc, a)
    decreases |a|
  {
    if IsDigit(a[0]) {
      assert (a + b)[1..] == a[1..] + b;
      DigitsStop(acc * 10 + a[0] - 48, a[1..], b);
    }
  }

  /** A number in its line is read from that line alone. */
  lemma {:induction false} AtolStops(a: seq<byte>, b: seq<byte>)
    requires a != [] && a[|a| - 1] == LF && exists i :: 0 <= i < |a| && !IsSpace(a[i])
    ensures Atol(a + b) == Atol(a)
    decreases |a|
  {
    var i :| 0 <= i < |a| && !IsSpace(a[i]);
    assert (a + b)[1..] == a[1..] + b;
    assert a[1..][|a| - 2] == LF;
    if IsSpace(a[0]) {
      assert !IsSpace(a[1..][i - 1]);
      AtolStops(a[1..], b);
    } else {
      DigitsStop(0, a[1..], b);
      DigitsStop(0, a, b);
    }
  }

  lemma LineAlone(f: Fields, l: seq<byte>, after: seq<byte>)
    requires FieldLine(l)
    ensures HeaderLine(f, l, after) == HeaderLine(f, l, [])
  {
    if LengthLine(l) {
      var i :| 15 <= i < |l| && !IsSpace(l[i]);
      assert !IsSpace(l[15..][i - 15]) && l[15..][|l| - 16] == LF;
      AtolStops(l[15..], after);
      AtolStops(l[15..], []);
    }
  }

  /** Whole lines are read one after another, whatever follows them. */
  lemma {:induction false} LinesThen(f: Fields, lines: seq<seq<byte>>, rest: seq<byte>)
    requires forall l :: l in lines ==> FieldLine(l)
    ensures Headers(f, Text(lines) + rest)
         == if Fold(f, lines).Bad? then Bad else Shift(Headers(Fold(f, lines).fields, rest), |Text(lines)|)
    ensures Fold(f, lines).Scan? ==> Fold(f, lines).len == |Text(lines)|
    decreases |lines|
  {
    if lines == [] {
      assert Text(lines) + rest == rest;
    } else {
      var l, text := lines[0], Text(lines) + rest;
      assert l in lines;
      assert text == l + (Text(lines[1..]) + rest);
      assert text[..|l|] == l && text[|l|..] == Text(lines[1..]) + rest;
      OneLine(f, text, |l|);
      LineAlone(f, l, text[|l|..]);
      var s := HeaderLine(f, l, []);
      hide HeaderLine, FieldLine, Blank;
      if s.Scan? { LinesThen(s.fields.(state := HeaderLineEnd), lines[1..], rest); }
    }
  }

  /** A printed block is read to its last byte and no further, and says what its lines say. */
  lemma BlockIs(f: Fields, lines: seq<seq<byte>>, end: seq<byte>, rest: seq<byte>)
    requires (forall l :: l in lines ==> FieldLine(l)) && Line(end) && Blank(end)
    requires lines != [] || f.state != HeaderBegin
    ensures Headers(f, Text(lines) + end + rest)
         == if Fold(f, lines).Bad? then Bad else Scan(Ended(Fold(f, lines).fields), |Text(lines) + end|)
  {
    assert Text(lines) + end + rest == Text(lines) + (end + rest);
    LinesThen(f, lines, end + rest);
    assert (end + rest)[..|end|] == end;
    if Fold(f, lines).Scan? { OneLine(Fold(f, lines).fields, end + rest, |end|); }
    FoldEnds(f, lines);
  }

  lemma {:induction false} FoldEnds(f: Fields, lines: seq<seq<byte>>)
    ensures var s := Fold(f, lines);
            s.Scan? ==> s.fields.state == if lines == [] then f.state else HeaderLineEnd
    decreases |lines|
  {
    if lines != [] {
      var s := HeaderLine(f, lines[0], []);
      if s.Scan? { FoldEnds(s.fields.(state := HeaderLineEnd), lines[1..]); }
    }
  }

  // ---------------------------------------------------------------- what the lines say

  predicate Negative(l: seq<byte>) { LengthLine(l) && Value(l) < 0 }

  /** Some line does. */
  ghost predicate Says(lines: seq<seq<byte>>, p: seq<byte> -> bool) { exists l :: l in lines && p(l) }

  lemma SaysStep(lines: seq<seq<byte>>, p: seq<byte> -> bool)
    requires lines != []
    ensures Says(lines, p) <==> p(lines[0]) || Says(lines[1..], p)
  {
    if Says(lines[1..], p) {
      var l :| l in lines[1..] && p(l);
      assert l in lines;
    }
    if p(lines[0]) { assert lines[0] in lines; }
  }

  lemma NotBoth(l: seq<byte>)
    ensures !(LengthLine(l) && CodingLine(l)) && !(LengthLine(l) && ConnectionLine(l))
    ensures !(CodingLine(l) && ConnectionLine(l))
  {
  }

  /** The length is that of the last line that gives one. */
  ghost predicate LastLength(lines: seq<seq<byte>>, i: nat, n: int) {
    i < |lines| && LengthLine(lines[i]) && Value(lines[i]) == n && forall j :: i < j < |lines| ==> !LengthLine(lines[j])
  }

  /** A block is refused if and only if it gives a negative length, or both a length and
      the chunked coding; otherwise each flag is set if and only if some line says so. */
  lemma FramingIff(f: Fields, lines: seq<seq<byte>>)
    requires !(f.counted && f.chunked)
    ensures var s := Fold(f, lines);
            && (s.Bad? <==> Says(lines, Negative) ||
                            ((f.counted || Says(lines, LengthLine)) && (f.chunked || Says(lines, ChunkedLine))))
            && (s.Scan? ==>
                  && (s.fields.counted <==> f.counted || Says(lines, LengthLine))
                  && (s.fields.chunked <==> f.chunked || Says(lines, ChunkedLine))
                  && (s.fields.close <==> f.close || Says(lines, CloseLine))
                  && (s.fields.keepalive <==> f.keepalive && !Says(lines, CloseLine))
                  && s.fields.auto == f.auto
                  && (if Says(lines, LengthLine) then exists i: nat :: LastLength(lines, i, s.fields.length)
                      else s.fields.length == f.length))
  {
    hide Fold, Says;
    RefusedIff(f, lines);
    FlagsIff(f, lines);
    LengthIs(f, lines);
  }

  lemma {:induction false} RefusedIff(f: Fields, lines: seq<seq<byte>>)
    requires !(f.counted && f.chunked)
    ensures Fold(f, lines).Bad? <==>
              Says(lines, Negative) ||
              ((f.counted || Says(lines, LengthLine)) && (f.chunked || Says(lines, ChunkedLine)))
    decreases |lines|
  {
    if lines != [] {
      var l, s := lines[0], HeaderLine(f, lines[0], []);
      NotBoth(l);
      SaysStep(lines, Negative);
      SaysStep(lines, LengthLine);
      SaysStep(lines, ChunkedLine);
      if LengthLine(l) { assert l[15..] + [] == l[15..]; }
      hide LengthLine, CodingLine, ConnectionLine, ChunkedLine, CloseLine, Says;
      if s.Scan? { RefusedIff(s.fields.(state := HeaderLineEnd), lines[1..]); }
    }
  }

  lemma {:induction false} FlagsIff(f: Fields, lines: seq<seq<byte>>)
    ensures var s := Fold(f, lines);
            s.Scan? ==>
              && (s.fields.counted <==> f.counted || Says(lines, LengthLine))
              && (s.fields.chunked <==> f.chunked || Says(lines, ChunkedLine))
              && (s.fields.close <==> f.close || Says(lines, CloseLine))
              && (s.fields.keepalive <==> f.keepalive && !Says(lines, CloseLine))
              && s.fields.auto == f.auto
    decreases |lines|
  {
    if lines != [] {
      var s := HeaderLine(f, lines[0], []);
      NotBoth(lines[0]);
      SaysStep(lines, LengthLine);
      SaysStep(lines, ChunkedLine);
      SaysStep(lines, CloseLine);
      hide LengthLine, CodingLine, ConnectionLine, ChunkedLine, CloseLine, Says, Atol;
      if s.Scan? { FlagsIff(s.fields.(state := HeaderLineEnd), lines[1..]); }
    }
  }

  lemma {:induction false} LengthIs(f: Fields, lines: seq<seq<byte>>)
    ensures var s := Fold(f, lines);
            s.Scan? ==>
              if Says(lines, LengthLine) then exists i: nat :: LastLength(lines, i, s.fields.length)
              else s.fields.length == f.length
    decreases |lines|
  {
    if lines != [] {
      var l, s := lines[0], HeaderLine(f, lines[0], []);
      SaysStep(lines, LengthLine);
      if LengthLine(l) { assert l[15..] + [] == l[15..]; }
      hide LengthLine, CodingLine, ConnectionLine, ChunkedLine, CloseLine, Says;
      if s.Scan? {
        LengthIs(s.fields.(state := HeaderLineEnd), lines[1..]);
        if Fold(f, lines).Scan? { LengthStep(lines, Fold(f, lines)); }
      }
    }
  }

  lemma LengthStep(lines: seq<seq<byte>>, s: Scan)
    requires lines != [] && s.Scan?
    ensures (exists i: nat :: LastLength(lines[1..], i, s.fields.length)) ==>
              exists i: nat :: LastLength(lines, i, s.fields.length)
    ensures LengthLine(lines[0]) && Value(lines[0]) == s.fields.length && !Says(lines[1..], LengthLine) ==>
              LastLength(lines, 0, s.fields.length)
  {
    hide LengthLine, Value;
    var n := s.fields.length;
    if i: nat :| LastLength(lines[1..], i, n) {
      assert lines[1..][i] == lines[i + 1];
      forall j | i + 1 < j < |lines| ensures !LengthLine(lines[j]) { assert lines[1..][j - 1] == lines[j]; }
      assert LastLength(lines, i + 1, n);
    }
    if !Says(lines[1..], LengthLine) {
      forall j | 0 < j < |lines| ensures !LengthLine(lines[j]) { assert lines[1..][j - 1] in lines[1..]; }
    }
  }
}
