/** The three timer rings of a worker, as sequences of socket ids in ring order
    (the pointer structure that realises them is in TimerRing.dfy). */
module Rings {

  datatype Ring = NoRing | Retransmit | Keepalive | Timeout

  datatype Rings = Rings(rt: seq<nat>, ka: seq<nat>, to: seq<nat>) {

    function Of(r: Ring): seq<nat> {
      match r
      case NoRing => []
      case Retransmit => rt
      case Keepalive => ka
      case Timeout => to
    }

    ghost predicate WellFormed() {
      && NoDup(rt) && NoDup(ka) && NoDup(to)
      && (forall id :: id in rt ==> id !in ka && id !in to)
      && (forall id :: id in ka ==> id !in to)
    }

    /** The ring that holds `id`. */
    function Holder(id: nat): Ring {
      if id in rt then Retransmit else if id in ka then Keepalive else if id in to then Timeout else NoRing
    }
  }

  ghost predicate NoDup(s: seq<nat>) {
    forall i, j :: 0 <= i < j < |s| ==> s[i] != s[j]
  }

  /** `s` without `id`, order kept. */
  function Without(s: seq<nat>, id: nat): (r: seq<nat>)
    ensures forall x :: x in r <==> x in s && x != id
    ensures |r| <= |s|
    ensures id !in s ==> r == s
  {
    if s == [] then []
    else if s[0] == id then Without(s[1..], id)
    else [s[0]] + Without(s[1..], id)
  }

  /** Take `id` off whatever ring holds it and append it to ring `r`. */
  function Place(rs: Rings, id: nat, r: Ring): (rs': Rings)
    ensures forall x, q :: x != id ==> (x in rs'.Of(q) <==> x in rs.Of(q))
    ensures forall q :: id in rs'.Of(q) <==> q == r && r != NoRing
  {
    var off := Rings(Without(rs.rt, id), Without(rs.ka, id), Without(rs.to, id));
    match r
    case NoRing => off
    case Retransmit => off.(rt := off.rt + [id])
    case Keepalive => off.(ka := off.ka + [id])
    case Timeout => off.(to := off.to + [id])
  }

  lemma TailNoDup(s: seq<nat>)
    requires NoDup(s) && s != []
    ensures NoDup(s[1..]) && s[0] !in s[1..]
  {
    var t := s[1..];
    forall i, j | 0 <= i < j < |t| ensures t[i] != t[j] { assert t[i] == s[i + 1] && t[j] == s[j + 1]; }
    forall i | 0 <= i < |t| ensures t[i] != s[0] { assert t[i] == s[i + 1]; }
  }

  lemma {:induction false} WithoutNoDup(s: seq<nat>, id: nat)
    requires NoDup(s)
    ensures NoDup(Without(s, id))
  {
    if s != [] {
      TailNoDup(s);
      WithoutNoDup(s[1..], id);
    }
  }

  lemma WithoutHead(s: seq<nat>, id: nat)
    requires s != []
    ensures Without(s, id) == if s[0] == id then Without(s[1..], id) else [s[0]] + Without(s[1..], id)
  {
  }

  lemma Regroup(x: nat, s: seq<nat>, t: seq<nat>)
    ensures [x] + (s + t) == [x] + s + t
  {
  }

  lemma {:induction false} WithoutAppend(a: seq<nat>, b: seq<nat>, id: nat)
    ensures Without(a + b, id) == Without(a, id) + Without(b, id)
  {
    if a == [] {
      assert a + b == b;
    } else {
      var x, t := a[0], a[1..];
      HeadOfSum(a, b);
      WithoutHead(a, id);
      WithoutHead(a + b, id);
      WithoutAppend(t, b, id);
      hide Without;
      if x != id { Regroup(x, Without(t, id), Without(b, id)); }
    }
  }

  lemma HeadOfSum(a: seq<nat>, b: seq<nat>)
    requires a != []
    ensures (a + b)[0] == a[0] && (a + b)[1..] == a[1..] + b
  {
  }

  lemma CutHead(s: seq<nat>, k: nat)
    requires 0 < k < |s|
    ensures [s[0]] + (s[1..][..k - 1] + s[1..][k..]) == s[..k] + s[k + 1..]
  {
  }

  lemma {:induction false} WithoutAt(s: seq<nat>, k: nat)
    requires NoDup(s) && k < |s|
    ensures Without(s, s[k]) == s[..k] + s[k + 1..]
    decreases k
  {
    TailNoDup(s);
    WithoutHead(s, s[k]);
    hide NoDup, Without;
    if k == 0 {
      assert s[..0] + s[1..] == s[1..];
    } else {
      WithoutAt(s[1..], k - 1);
      CutHead(s, k);
    }
  }

  /** Moving a socket to a ring keeps the rings duplicate-free and disjoint,
      puts the socket on the tail of that ring only, and moves nobody else. */
  lemma PlaceKeeps(rs: Rings, id: nat, r: Ring)
    requires rs.WellFormed()
    ensures Place(rs, id, r).WellFormed()
    ensures Place(rs, id, r).Holder(id) == r
    ensures forall x :: x != id ==> Place(rs, id, r).Holder(x) == rs.Holder(x)
    ensures r != NoRing ==> var q := Place(rs, id, r).Of(r); q != [] && q[|q| - 1] == id
  {
    WithoutNoDup(rs.rt, id);
    WithoutNoDup(rs.ka, id);
    WithoutNoDup(rs.to, id);
    var p := Place(rs, id, r);
    forall x | x != id ensures p.Holder(x) == rs.Holder(x) {
      assert x in p.Of(Retransmit) <==> x in rs.Of(Retransmit);
      assert x in p.Of(Keepalive) <==> x in rs.Of(Keepalive);
      assert x in p.Of(Timeout) <==> x in rs.Of(Timeout);
    }
    assert id in p.Of(Retransmit) <==> r == Retransmit;
    assert id in p.Of(Keepalive) <==> r == Keepalive;
    assert id in p.Of(Timeout) <==> r == Timeout;
  }

  lemma WithoutEnd(s: seq<nat>, id: nat)
    ensures Without(Without(s, id) + [id], id) == Without(s, id)
  {
    WithoutAppend(Without(s, id), [id], id);
  }

  /** Of two moves of a socket only the last one counts. */
  lemma PlaceAgain(rs: Rings, id: nat, r: Ring, r': Ring)
    ensures Place(Place(rs, id, r), id, r') == Place(rs, id, r')
  {
    WithoutEnd(rs.rt, id);
    WithoutEnd(rs.ka, id);
    WithoutEnd(rs.to, id);
  }
}
