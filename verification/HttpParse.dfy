/** The parser of HTTP responses: a resumable machine that eats each segment in big
    steps, and the line by line and one-byte machines it implements. */
module HttpParse {
  import opened Verdicts
  import opened HttpHeader

  /** http_parse_state and http_length. */
  datatype Parse = Parse(state: State, length: nat)

  datatype Outcome = Outcome(parse: Parse, verdict: Verdict)

  // ---------------------------------------------------------------- the byte machine

  predicate InChunks(s: State) {
    s in {HeaderDone, ChunkSize, ChunkSizeEnd, ChunkData, ChunkDataEnd, TrailerBegin, Trailer, ChunkEnd}
  }

  /** The end of the header is the start of a chunk size. */
  function Enter(p: Parse): Parse {
    if p.state == HeaderDone then p.(state := ChunkSize) else p
  }

  predicate IsHex(c: byte) { '0' as int <= c <= '9' as int || 'a' as int <= c <= 'f' as int }

  function HexDigit(c: byte): nat
    requires IsHex(c)
  {
    if c <= '9' as int then c - '0' as int else c - 'a' as int + 10
  }

  function Eat(p: Parse, c: byte): Outcome {
    match Enter(p).state
    case ChunkSize =>
      if IsHex(c) then Outcome(Parse(ChunkSize, p.length * 16 + HexDigit(c)), More)
      else Outcome(p.(state := ChunkSizeEnd), More)
    case ChunkSizeEnd =>
      if c != LF then Outcome(p, More)
      else Outcome(p.(state := if p.length > 0 then ChunkData else TrailerBegin), More)
    case ChunkData =>
      if p.length > 0 then Outcome(p.(length := p.length - 1), More)
      else if c == CR then Outcome(p.(state := ChunkDataEnd), More)
      else Outcome(p, Error)
    case ChunkDataEnd => if c == LF then Outcome(p.(state := ChunkSize), More) else Outcome(p, Error)
    case TrailerBegin => Outcome(p.(state := if c == CR then ChunkEnd else Trailer), More)
    case Trailer => Outcome(if c == LF then p.(state := TrailerBegin) else p, More)
    case ChunkEnd => if c == LF then Outcome(p.(state := BodyDone), End) else Outcome(p, Error)
    case _ => Outcome(p, Error)
  }

  /** Eat byte after byte until the data or the body ends or an error shows. */
  function EatAll(p: Parse, data: seq<byte>): Outcome
    decreases |data|
  {
    if data == [] then Outcome(Enter(p), More)
    else
      var o := Eat(p, data[0]);
      if o.verdict == More then EatAll(o.parse, data[1..]) else o
  }

  lemma EatStays(p: Parse, c: byte)
    requires InChunks(p.state)
    ensures var o := Eat(p, c); o.verdict == More ==> InChunks(o.parse.state) && o.parse.state != HeaderDone
  {
  }

  /** Eating `a + b` is eating `a` and then `b`, unless `a` already ended it. */
  lemma {:induction false} EatSplit(p: Parse, a: seq<byte>, b: seq<byte>)
    ensures EatAll(p, a + b)
         == if EatAll(p, a).verdict == More then EatAll(EatAll(p, a).parse, b) else EatAll(p, a)
    decreases |a|
  {
    if a == [] {
      assert a + b == b;
    } else {
      assert (a + b)[1..] == a[1..] + b;
      EatSplit(Eat(p, a[0]).parse, a[1..], b);
    }
  }

  /** Chunk data is skipped as a block. */
  lemma {:induction false} EatData(n: nat, data: seq<byte>)
    ensures EatAll(Parse(ChunkData, n), data)
         == if |data| <= n then Outcome(Parse(ChunkData, n - |data|), More) else EatAll(Parse(ChunkData, 0), data[n..])
    decreases n
  {
    if n > 0 && data != [] {
      EatData(n - 1, data[1..]);
      if |data| > n { assert data[1..][n - 1..] == data[n..]; }
    } else if n == 0 {
      assert data[0..] == data;
    }
  }

  /** And the byte behind it, which has to be CR. */
  lemma EatBlock(n: nat, data: seq<byte>)
    ensures EatAll(Parse(ChunkData, n), data)
         == if |data| <= n then Outcome(Parse(ChunkData, n - |data|), More)
            else if data[n] == CR then EatAll(Parse(ChunkDataEnd, 0), data[n + 1..])
            else Outcome(Parse(ChunkData, 0), Error)
  {
    EatData(n, data);
    if |data| > n { assert data[n..][0] == data[n] && data[n..][1..] == data[n + 1..]; }
  }

  lemma EatNothing(p: Parse, data: seq<byte>)
    requires data == []
    ensures EatAll(p, data) == Outcome(Enter(p), More)
  {
  }

  // ---------------------------------------------------------------- one segment

  /** A body with a content length, of which `n` more bytes arrive. */
  function Counted(p: Parse, n: nat): Outcome {
    if n < p.length then Outcome(p.(length := p.length - n), More)
    else if n == p.length then Outcome(Parse(BodyDone, 0), End)
    else Outcome(p, Error)
  }

  /** A stretch of body under its framing. */
  function Body(f: Fields, data: seq<byte>): (Fields, Verdict)
    requires Sane(f)
  {
    if f.counted then Said(f, Counted(Parse(f.state, f.length), |data|))
    else if !f.chunked then (f, More)
    else if InChunks(f.state) then Said(f, EatAll(Parse(f.state, f.length), data))
    else (f, Error)
  }

  function Said(f: Fields, o: Outcome): (Fields, Verdict) {
    (f.(state := o.parse.state, length := o.parse.length), o.verdict)
  }

  /** One segment of a response: lines of the header block and the body behind them. */
  function Run(f: Fields, data: seq<byte>): (r: (Fields, Verdict))
    requires Sane(f)
    ensures Sane(r.0)
  {
    if !InHeader(f.state) then Body(f, data)
    else
      HeadersSane(Opened(f), data);
      var s := Headers(Opened(f), data);
      if s.Bad? then (f, Error) else Body(s.fields, data[s.len..])
  }

  function Opened(f: Fields): Fields { if f.state == Init then f.(state := HeaderBegin) else f }

  // ---------------------------------------------------------------- the code

  class Parser {
    var state: State
    var length: int         // http_length
    var flagAuto: bool      // HTTP_F_CONTENT_LENGTH_AUTO
    var flagLength: bool    // HTTP_F_CONTENT_LENGTH
    var flagChunked: bool   // HTTP_F_TRANSFER_ENCODING
    var flagClose: bool     // HTTP_F_CLOSE
    var keepalive: bool

    /** socket_init_http. */
    constructor (alive: bool)
      ensures Values() == Anew(alive)
    {
      state, length, flagAuto, flagLength, flagChunked, flagClose := Init, 0, false, false, false, false;
      keepalive := alive;
    }

    function Values(): Fields
      reads this
    {
      Fields(state, length, flagAuto, flagLength, flagChunked, flagClose, keepalive)
    }

    function Now(): Parse
      requires length >= 0
      reads this
    {
      Parse(state, length)
    }

    /** http_parse_header_line, on the line of `lineLen` bytes from `start` on. */
    method ParseHeaderLine(data: seq<byte>, start: nat, nameLen: nat, lineLen: nat) returns (ok: bool)
      requires 0 < lineLen && start + lineLen <= |data| && nameLen == NameLen(data[start..start + lineLen])
      modifies this`length, this`flagLength, this`flagChunked, this`flagClose, this`keepalive
      ensures var s := HeaderLine(old(Values()), data[start..start + lineLen], data[start + lineLen..]);
              && (ok <==> s.Scan?)
              && Values() == if ok then s.fields else old(Values())
    {
      var line := data[start..start + lineLen];
      if Match(line, nameLen, 15, "Cc", "hH") {
        assert line[15..] + data[start + lineLen..] == data[start + 15..];
        var n := Atol(data[start + 15..]);
        if n < 0 { return false; }
        if flagChunked { return false; }
        length := n;
        flagLength := true;
      } else if Match(line, nameLen, 18, "Tt", "gG") {
        var i := nameLen;
        while i < lineLen
          invariant nameLen <= i <= lineLen && forall j :: 18 <= j < i ==> !IsK(line[j])
          invariant Values() == old(Values())
        {
          if IsK(data[start + i]) {
            assert IsK(line[i]);
            if flagLength { return false; }
            flagChunked := true;
            return true;
          }
          i := i + 1;
        }
      } else if Match(line, nameLen, 11, "Cc", "nN") {
        if lineLen < nameLen + 10 + 1 { flagClose, keepalive := true, false; }
      }
      return true;
    }

    /** At the end of a line: what it says, or the end of the block. */
    method ParseLineEnd(data: seq<byte>, start: nat, nameLen: nat, lineLen: nat, ghost base: Fields)
      returns (ok: bool, done: bool)
      requires 0 < lineLen && start + lineLen <= |data| && Line(data[start..start + lineLen])
      requires nameLen == NameLen(data[start..start + lineLen])
      requires Values() == Begun(base, data[start..start + lineLen - 1])
      modifies this
      ensures Shift(Headers(base, data[start..]), start)
           == if !ok then Bad
              else if done then Scan(Values(), start + lineLen)
              else Shift(Headers(Values(), data[start + lineLen..]), start + lineLen)
      ensures ok && !done ==> state == HeaderLineEnd
    {
      hide Headers, HeaderLine, NameLen, Blank, Begun, Line, Ended;
      LineAt(data, start, lineLen);
      LineTaken(base, data[start..start + lineLen - 1], data[start..], start);
      if state == HeaderBegin {
        ok := ParseHeaderLine(data, start, nameLen, lineLen);
        if ok { state := HeaderLineEnd; }
        return ok, false;
      }
      EndHeaders();
      return true, true;
    }

    method EndHeaders()
      modifies this
      ensures Values() == Ended(old(Values()))
    {
      state := HeaderDone;
      if !flagAuto && !flagLength && !flagChunked && !flagClose {
        flagAuto, flagClose, length, keepalive := true, true, -1, false;
      }
    }

    /** http_parse_headers: `len` bytes are header, up to the end of the block or of the data. */
    method ParseHeaders(data: seq<byte>) returns (ok: bool, len: nat)
      requires state in {HeaderBegin, HeaderLineEnd}
      modifies this
      ensures var s := Headers(old(Values()), data);
              (ok <==> s.Scan?) && (ok ==> Values() == s.fields && len == s.len)
    {
      hide Headers, HeaderLine, NameLen, Blank, Shift, Ended, Line;
      NothingYet();
      NoShift(Headers(Values(), data));
      var p, start, lineLen, nameLen := 0, 0, 0, 0;
      ghost var base := Values();
      assert data[0..] == data;
      while p < |data|
        invariant start + lineLen == p <= |data| && LF !in data[start..p] && nameLen == NameLen(data[start..p])
        invariant base.state in {HeaderBegin, HeaderLineEnd} && Values() == Begun(base, data[start..p])
        invariant Headers(old(Values()), data) == Shift(Headers(base, data[start..]), start)
      {
        var c := data[p];
        NextByte(data, start, p);
        p := p + 1;
        lineLen := lineLen + 1;
        if c == COLON && nameLen == 0 {
          nameLen := lineLen;
        } else if c == CR {
        } else if c == LF {
          var done;
          ok, done := ParseLineEnd(data, start, nameLen, lineLen, base);
          if !ok || done { return ok, p; }
          lineLen, nameLen, start := 0, 0, p;
          base := Values();
        } else if state != HeaderBegin {
          state := HeaderBegin;
        }
      }
      assert data[start..p] == data[start..];
      LineBegun(base, data[start..]);
      ShiftScan(Begun(base, data[start..]), |data[start..]|, start);
      return true, p;
    }

    /** From trailer_begin, trailer or chunk_end, reading at position `at`. */
    method ParseTrailer(data: seq<byte>, at: nat) returns (v: Verdict)
      requires at <= |data| && length >= 0 && state in {TrailerBegin, Trailer, ChunkEnd}
      modifies this`state
      ensures Outcome(Now(), v) == EatAll(old(Now()), data[at..])
    {
      var p := at;
      while true
        invariant at <= p <= |data| && state in {TrailerBegin, Trailer, ChunkEnd}
        invariant EatAll(Now(), data[p..]) == EatAll(old(Now()), data[at..])
        decreases |data| - p
      {
        if state == TrailerBegin {
          if p >= |data| { return More; }
          var c := data[p];
          assert data[p..][0] == c && data[p..][1..] == data[p + 1..];
          p := p + 1;
          if c == CR { state := ChunkEnd; } else { state := Trailer; }
        }
        if state == ChunkEnd {
          if p >= |data| { return More; }
          var c := data[p];
          assert data[p..][0] == c && data[p..][1..] == data[p + 1..];
          if c == LF {
            state := BodyDone;
            return End;
          }
          return Error;
        }
        p := ParseTrailerLine(data, p);
        if state == Trailer { return More; }
      }
    }

    /** The rest of a trailer line. */
    method ParseTrailerLine(data: seq<byte>, at: nat) returns (p: nat)
      requires at <= |data| && length >= 0 && state == Trailer
      modifies this`state
      ensures at <= p <= |data| && if state == Trailer then p == |data| else state == TrailerBegin && p > at
      ensures EatAll(Now(), data[p..]) == EatAll(old(Now()), data[at..])
    {
      p := at;
      while p < |data| && state == Trailer
        invariant at <= p <= |data| && state in {TrailerBegin, Trailer} && (state == TrailerBegin ==> p > at)
        invariant EatAll(Now(), data[p..]) == EatAll(old(Now()), data[at..])
        decreases |data| - p
      {
        var c := data[p];
        assert data[p..][0] == c && data[p..][1..] == data[p + 1..];
        p := p + 1;
        if c == LF { state := TrailerBegin; }
      }
    }

    /** The digits of a chunk size and the byte that ends them. */
    method ParseSize(data: seq<byte>, at: nat) returns (p: nat)
      requires at <= |data| && length >= 0 && state == ChunkSize
      modifies this`state, this`length
      ensures at <= p <= |data| && length >= 0 && state in {ChunkSize, ChunkSizeEnd}
      ensures (state == ChunkSize ==> p == |data|)
      ensures state == ChunkSizeEnd ==> p > at
      ensures EatAll(Now(), data[p..]) == EatAll(old(Now()), data[at..])
    {
      p := at;
      while p < |data|
        invariant at <= p <= |data| && length >= 0 && state == ChunkSize
        invariant EatAll(Now(), data[p..]) == EatAll(old(Now()), data[at..])
      {
        var c := data[p];
        assert data[p..][0] == c && data[p..][1..] == data[p + 1..];
        p := p + 1;
        if '0' as int <= c <= '9' as int {
          length := length * 16 + c - '0' as int;
        } else if 'a' as int <= c <= 'f' as int {
          length := length * 16 + c - 'a' as int + 10;
        } else {
          state := ChunkSizeEnd;
          break;
        }
      }
    }

    /** The rest of a chunk size line. */
    method ParseSizeEnd(data: seq<byte>, at: nat) returns (p: nat)
      requires at <= |data| && length >= 0 && (state == ChunkSizeEnd || (state == ChunkSize && at == |data|))
      modifies this`state
      ensures at <= p <= |data| && length == old(length) && state in {old(state), ChunkData, TrailerBegin}
      ensures state in {ChunkSize, ChunkSizeEnd} ==> p == |data|
      ensures EatAll(Now(), data[p..]) == EatAll(old(Now()), data[at..])
    {
      p := at;
      while p < |data|
        invariant at <= p <= |data| && length == old(length) && state == old(state)
        invariant EatAll(Now(), data[p..]) == EatAll(old(Now()), data[at..])
      {
        var c := data[p];
        assert data[p..][0] == c && data[p..][1..] == data[p + 1..];
        p := p + 1;
        if c == LF {
          if length > 0 { state := ChunkData; } else { state := TrailerBegin; }
          break;
        }
      }
    }

    /** The bytes of a chunk in one step and the CR behind them, if the data goes so far. */
    method ParseData(data: seq<byte>, at: nat) returns (p: nat, v: Verdict)
      requires at <= |data| && length >= 0
      requires state == ChunkData || (state in {ChunkSize, ChunkSizeEnd} && at == |data|)
      modifies this`state, this`length
      ensures at <= p <= |data| && length >= 0
      ensures if state == ChunkDataEnd then p > at && EatAll(Now(), data[p..]) == EatAll(old(Now()), data[at..])
              else Outcome(Now(), v) == EatAll(old(Now()), data[at..])
    {
      hide EatAll;
      p, v := at, More;
      if p >= |data| {
        EatNothing(Now(), data[at..]);
        return;
      }
      var len := |data| - p;
      EatBlock(length, data[at..]);
      if length >= len {
        length := length - len;
        return;
      }
      p := p + length;
      length := 0;
      var c := data[p];
      assert data[at..][old(length)] == c && data[at..][old(length) + 1..] == data[p + 1..];
      p := p + 1;
      if c == CR { state := ChunkDataEnd; } else { v := Error; }
    }

    /** The LF that closes a chunk, if the data goes so far. */
    method ParseDataEnd(data: seq<byte>, at: nat) returns (p: nat, v: Verdict)
      requires at <= |data| && length >= 0 && state == ChunkDataEnd
      modifies this`state
      ensures at <= p <= |data| && length == old(length)
      ensures if state == ChunkSize then p > at && EatAll(Now(), data[p..]) == EatAll(old(Now()), data[at..])
              else Outcome(Now(), v) == EatAll(old(Now()), data[at..])
    {
      p, v := at, More;
      if p >= |data| { return; }
      var c := data[p];
      assert data[p..][0] == c && data[p..][1..] == data[p + 1..];
      p := p + 1;
      if c == LF { state := ChunkSize; } else { v := Error; }
    }

    /** http_parse_chunk: `entry` is the label the switch jumps to, the sections
        after it are reached by falling through, and the loop is the retry goto. */
    method ParseChunk(data: seq<byte>) returns (v: Verdict)
      requires length >= 0
      modifies this`state, this`length
      ensures length >= 0
      ensures InChunks(old(state)) ==> Outcome(Now(), v) == EatAll(old(Now()), data)
      ensures !InChunks(old(state)) ==> v == Error && Now() == old(Now())
    {
      if !InChunks(state) { return Error; }
      hide EatAll;
      var p := 0;
      assert data[0..] == data;
      while true
        invariant p <= |data| && length >= 0 && InChunks(state)
        invariant EatAll(Now(), data[p..]) == EatAll(old(Now()), data)
        decreases |data| - p
      {
        var entry := state;
        Entering(Now(), data[p..]);
        if entry == HeaderDone { state := ChunkSize; }
        if entry in {HeaderDone, ChunkSize} { p := ParseSize(data, p); }
        if entry in {HeaderDone, ChunkSize, ChunkSizeEnd} {
          p := ParseSizeEnd(data, p);
          if state == TrailerBegin {
            v := ParseTrailer(data, p);
            return;
          }
        }
        if entry in {HeaderDone, ChunkSize, ChunkSizeEnd, ChunkData} {
          p, v := ParseData(data, p);
          if state != ChunkDataEnd { return; }
        }
        if entry in {TrailerBegin, Trailer, ChunkEnd} {
          v := ParseTrailer(data, p);
          return;
        }
        p, v := ParseDataEnd(data, p);
        if state != ChunkSize { return; }
      }
    }

    lemma Entering(p: Parse, data: seq<byte>)
      ensures EatAll(Enter(p), data) == EatAll(p, data)
    {
    }

    /** http_parse_body. */
    method ParseBody(data: seq<byte>) returns (v: Verdict)
      requires Sane(Values())
      modifies this`state, this`length
      ensures (Values(), v) == Body(old(Values()), data)
    {
      if flagLength {
        if |data| < length {
          length := length - |data|;
          return More;
        } else if |data| == length {
          length := 0;
          state := BodyDone;
          return End;
        }
        return Error;
      } else if flagChunked {
        v := ParseChunk(data);
      } else {
        return More;
      }
    }

    /** http_parse_run. When it fails on a header line the fields are left half-way. */
    method ParseRun(data: seq<byte>) returns (v: Verdict, first: bool)
      requires Sane(Values())
      modifies this
      ensures first <==> old(state) == Init
      ensures v == Run(old(Values()), data).1 && (v != Error ==> Values() == Run(old(Values()), data).0)
    {
      first := state == Init;
      var at := 0;
      if state == Init { state := HeaderBegin; }
      if InHeader(state) {
        HeadersSane(Values(), data);
        var ok, len := ParseHeaders(data);
        if !ok { return Error, first; }
        at := len;
      } else {
        assert data[0..] == data;
      }
      v := ParseBody(data[at..]);
    }

    /** The parser's part of http_client_process_data: once a body has ended or failed it
        starts anew, so the next segment is read as a header block. */
    method Receive(data: seq<byte>) returns (v: Verdict, first: bool)
      requires Sane(Values())
      modifies this
      ensures first <==> old(state) == Init
      ensures (Values(), v) == Received(old(Values()), data)
    {
      v, first := ParseRun(data);
      if v != More {
        state, length, flagAuto, flagLength, flagChunked, flagClose := Init, 0, false, false, false, false;
        if v == Error { keepalive := false; }
      }
    }
  }

  function Received(f: Fields, data: seq<byte>): (r: (Fields, Verdict))
    requires Sane(f)
    ensures Sane(r.0)
  {
    var (g, v) := Run(f, data);
    (if v == More then g else Anew(v == End && g.keepalive), v)
  }
}
