/** The settings that decide when a client asks again, as the configuration file gives
    them and the checks let them pass. */
module Settings {
  import opened Tcp

  const MaxNum := 32767    // KEEPALIVE_REQ_NUM
  const RtoMin := 2        // seconds
  const RtoMax := 300
  const RtoDefault := 2

  /** The fields of the configuration; the file starts from `Blank`. */
  datatype Settings = Settings(server: bool, cc: nat, flood: bool, keepalive: bool, us: nat, num: nat, rtoSec: nat)

  const Blank := Settings(false, 0, false, false, 0, 0, 0)

  /** A line of the file. Numbers are those the parsing of digits gives, negative where that
      fails; `counts` says whether a keepalive line has a second argument. */
  datatype Line =
    | KeepaliveLine(us: int, counts: bool, num: int)
    | RetransmitTimeout(sec: int)
    | Other(server: bool, cc: nat, flood: bool)

  datatype Parsed = Refused | Parsed(s: Settings)

  /** config_parse_keepalive. */
  function ParseKeepalive(s: Settings, us: int, counts: bool, num: int): Parsed {
    if s.keepalive then Refused
    else if us < 0 then Refused
    else if counts && (num < 0 || num > MaxNum) then Refused
    else
      var t := s.(us := us, num := if counts then num else s.num);
      if t.us == 0 && t.num != 0 then Refused else Parsed(t.(keepalive := true))
  }

  /** config_parse_retransmit_timeout. */
  function ParseRetransmitTimeout(s: Settings, sec: int): Parsed {
    if s.rtoSec != 0 then Refused
    else if sec < RtoMin || sec > RtoMax then Refused
    else Parsed(s.(rtoSec := sec))
  }

  function ParseLine(s: Settings, l: Line): Parsed {
    match l
    case KeepaliveLine(us, counts, num) => ParseKeepalive(s, us, counts, num)
    case RetransmitTimeout(sec) => ParseRetransmitTimeout(s, sec)
    case Other(server, cc, flood) => Parsed(s.(server := server, cc := cc, flood := flood))
  }

  /** All lines, up to the first that is refused. */
  function ParseLines(s: Settings, lines: seq<Line>): Parsed
    decreases |lines|
  {
    if lines == [] then Parsed(s)
    else match ParseLine(s, lines[0]) case Refused => Refused case Parsed(t) => ParseLines(t, lines[1..])
  }

  /** config_check_keepalive. */
  function CheckKeepalive(s: Settings): Parsed {
    if s.server then Parsed(s.(num := 0))
    else if s.cc > 0 && !s.keepalive then Refused
    else if s.keepalive && s.flood && s.us == 0 then Refused
    else Parsed(s)
  }

  /** The whole file: its lines, the default timeout and the check. */
  function ParseFile(lines: seq<Line>): Parsed {
    match ParseLines(Blank, lines)
    case Refused => Refused
    case Parsed(s) => CheckKeepalive(if s.rtoSec == 0 then s.(rtoSec := RtoDefault) else s)
  }

  /** config_set_tsc, for a clock of `hz` ticks a second. */
  function Ticks(us: nat, hz: nat): nat {
    if us % 1000 == 0 then (us / 1000) * (hz / 1000) else us * (hz / 1000) / 1000
  }

  /** The configuration `cfg` has these settings. */
  predicate Configures(s: Settings, hz: nat, cfg: Config) {
    && cfg.server == s.server && cfg.keepalive == s.keepalive && cfg.flood == s.flood
    && cfg.maxRequests == s.num && cfg.interval == Ticks(s.us, hz) && cfg.rto == hz * s.rtoSec
  }

  // ---------------------------------------------------------------- what passes

  /** A client that asks on at once has no limit of requests, no flood, and a timeout. */
  predicate Accepted(cfg: Config) {
    !cfg.server && cfg.interval == 0 ==>
      cfg.maxRequests == 0 && cfg.rto > 0 && !(cfg.keepalive && cfg.flood)
  }

  /** What every line keeps. */
  predicate Consistent(s: Settings) {
    && (!s.keepalive ==> s.us == 0 && s.num == 0) && (s.us == 0 ==> s.num == 0) && s.num <= MaxNum
    && (s.rtoSec == 0 || RtoMin <= s.rtoSec <= RtoMax)
  }

  lemma {:induction false} LinesKeep(s: Settings, lines: seq<Line>)
    requires Consistent(s)
    ensures var r := ParseLines(s, lines); r.Parsed? ==> Consistent(r.s)
    decreases |lines|
  {
    if lines != [] {
      var r := ParseLine(s, lines[0]);
      if r.Parsed? { LinesKeep(r.s, lines[1..]); }
    }
  }

  /** With a clock of at least a million ticks a second only the interval zero is no ticks. */
  lemma TicksZero(us: nat, hz: nat)
    requires hz >= 1_000_000
    ensures Ticks(us, hz) == 0 <==> us == 0
  {
    var k := hz / 1000;
    if us % 1000 == 0 {
      if us > 0 { Grows(us / 1000, k); }
    } else {
      Grows(us, k);
    }
  }

  lemma Grows(n: nat, k: nat)
    requires n > 0 && k >= 1000
    ensures n * k >= k
  {
  }

  /** Whatever the file says, what passes is accepted, its timeout is positive, and a client
      with a target of connections has keepalive. */
  lemma FileIsAccepted(lines: seq<Line>, hz: nat, cfg: Config)
    requires hz >= 1_000_000
    requires ParseFile(lines).Parsed? && Configures(ParseFile(lines).s, hz, cfg)
    ensures Accepted(cfg) && cfg.rto >= 2 * hz
    ensures !cfg.server && ParseFile(lines).s.cc > 0 ==> cfg.keepalive
  {
    LinesKeep(Blank, lines);
    var s := ParseFile(lines).s;
    TicksZero(s.us, hz);
    assert hz * s.rtoSec >= hz * 2;
  }

  /** And each such combination passes: no limit is stricter than it has to be. */
  lemma AcceptedPasses(us: nat, num: nat, sec: nat, cc: nat, flood: bool)
    requires num <= MaxNum && RtoMin <= sec <= RtoMax
    ensures ParseFile([KeepaliveLine(us, true, num), RetransmitTimeout(sec), Other(false, cc, flood)])
            == if us == 0 && (num != 0 || flood) then Refused
               else Parsed(Settings(false, cc, flood, true, us, num, sec))
  {
    var a, b, c := KeepaliveLine(us, true, num), RetransmitTimeout(sec), Other(false, cc, flood);
    assert [a, b, c][1..] == [b, c] && [b, c][1..] == [c];
    var t := ParseLine(Blank, a);
    if t.Parsed? {
      var u := ParseLine(t.s, b).s;
      assert ParseLines(u, [c]) == ParseLines(u.(server := false, cc := cc, flood := flood), []);
      assert ParseLines(t.s, [b, c]) == ParseLines(u, [c]);
    }
  }
}
