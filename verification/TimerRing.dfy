/** The timer rings as they are in memory: circular doubly linked lists through
    the node that is the first member of every socket, one list head per ring. */
module TimerRing {
  import opened Rings
  import opened Options

  // ---------------------------------------------------------------- circles of indices

  /** Position `k` of the circle h, s[0], s[1], .., h. */
  function Cell(h: nat, s: seq<nat>, k: int): nat {
    if 1 <= k <= |s| then s[k - 1] else h
  }

  ghost predicate InRange(s: seq<nat>, n: nat) { forall k :: 0 <= k < |s| ==> s[k] < n }

  /** The links between positions `k` and `k + 1`. */
  ghost predicate Link(nx: seq<nat>, pv: seq<nat>, h: nat, s: seq<nat>, k: int)
    requires |nx| == |pv| && h < |nx| && InRange(s, |nx|)
  {
    nx[Cell(h, s, k)] == Cell(h, s, k + 1) && pv[Cell(h, s, k + 1)] == Cell(h, s, k)
  }

  /** `nx` and `pv` run around the circle through head `h` and the members `s`. */
  ghost predicate Linked(nx: seq<nat>, pv: seq<nat>, h: nat, s: seq<nat>) {
    && |nx| == |pv| && h < |nx| && InRange(s, |nx|)
    && forall k :: 0 <= k <= |s| ==> Link(nx, pv, h, s, k)
  }

  lemma CellsDiffer(h: nat, s: seq<nat>, j: int, k: int)
    requires NoDup(s) && h !in s && 0 <= j <= |s| && 0 <= k <= |s| && j != k
    ensures Cell(h, s, j) != Cell(h, s, k)
  {
  }

  /** A circle none of whose cells changed is still a circle. */
  lemma Untouched(nx: seq<nat>, pv: seq<nat>, nx': seq<nat>, pv': seq<nat>, h: nat, s: seq<nat>)
    requires Linked(nx, pv, h, s) && |nx'| == |pv'| == |nx|
    requires nx'[h] == nx[h] && pv'[h] == pv[h]
    requires forall x :: x in s ==> nx'[x] == nx[x] && pv'[x] == pv[x]
    ensures Linked(nx', pv', h, s)
  {
    forall k | 0 <= k <= |s| ensures Link(nx', pv', h, s, k) {
      assert Link(nx, pv, h, s, k);
      assert Cell(h, s, k) == h || Cell(h, s, k) in s;
      assert Cell(h, s, k + 1) == h || Cell(h, s, k + 1) in s;
    }
  }

  /** Bridging over member `i` leaves the circle without it: away from the bridge. */
  lemma BridgedAt(nx: seq<nat>, pv: seq<nat>, h: nat, s: seq<nat>, i: nat, a: nat, p: nat, n: nat)
    requires Linked(nx, pv, h, s) && NoDup(s) && h !in s && i < |s| && p == Cell(h, s, i) && n == Cell(h, s, i + 2)
    requires a <= |s| && a != i && a != i + 1
    ensures nx[p := n][s[i] := s[i]][Cell(h, s, a)] == Cell(h, s, a + 1)
    ensures pv[n := p][s[i] := s[i]][Cell(h, s, a + 1)] == Cell(h, s, a)
  {
    var b := if a == |s| then 0 else a + 1;
    var i2 := if i + 1 == |s| then 0 else i + 2;
    assert Cell(h, s, b) == Cell(h, s, a + 1) && Cell(h, s, i2) == n && Cell(h, s, i + 1) == s[i];
    assert Link(nx, pv, h, s, a);
    CellsDiffer(h, s, a, i);
    CellsDiffer(h, s, a, i + 1);
    CellsDiffer(h, s, b, i2);
    CellsDiffer(h, s, b, i + 1);
  }

  /** The neighbours of member `i`. */
  lemma Neighbours(nx: seq<nat>, pv: seq<nat>, h: nat, s: seq<nat>, i: nat)
    requires Linked(nx, pv, h, s) && NoDup(s) && h !in s && i < |s|
    ensures pv[s[i]] == Cell(h, s, i) && nx[s[i]] == Cell(h, s, i + 2)
    ensures nx[s[i]] < |nx| && pv[s[i]] < |nx| && nx[s[i]] != s[i] && pv[s[i]] != s[i]
    ensures (nx[s[i]] == h || nx[s[i]] in s) && (pv[s[i]] == h || pv[s[i]] in s)
  {
    assert Cell(h, s, i + 1) == s[i] && Link(nx, pv, h, s, i) && Link(nx, pv, h, s, i + 1);
    var i2 := if i + 1 == |s| then 0 else i + 2;
    assert Cell(h, s, i2) == Cell(h, s, i + 2);
    CellsDiffer(h, s, i2, i + 1);
    CellsDiffer(h, s, i, i + 1);
  }

  lemma Bridged(nx: seq<nat>, pv: seq<nat>, h: nat, s: seq<nat>, i: nat, p: nat, n: nat)
    requires Linked(nx, pv, h, s) && NoDup(s) && h !in s && i < |s| && pv[s[i]] == p < |nx| && nx[s[i]] == n < |nx|
    ensures Linked(nx[p := n][s[i] := s[i]], pv[n := p][s[i] := s[i]], h, s[..i] + s[i + 1..])
  {
    Neighbours(nx, pv, h, s, i);
    hide NoDup;
    var id, t := s[i], s[..i] + s[i + 1..];
    var nx': seq<nat>, pv': seq<nat> := nx[p := n][id := id], pv[n := p][id := id];
    forall k | 0 <= k <= |t| ensures Link(nx', pv', h, t, k) {
      if k < i {
        assert Cell(h, t, k) == Cell(h, s, k) && Cell(h, t, k + 1) == Cell(h, s, k + 1);
        BridgedAt(nx, pv, h, s, i, k, p, n);
      } else if k > i {
        assert Cell(h, t, k) == Cell(h, s, k + 1) && Cell(h, t, k + 1) == Cell(h, s, k + 2);
        BridgedAt(nx, pv, h, s, i, k + 1, p, n);
      } else {
        assert Cell(h, t, k) == p && Cell(h, t, k + 1) == n;
      }
    }
  }

  /** Linking in front of the head appends. */
  lemma Appended(nx: seq<nat>, pv: seq<nat>, h: nat, s: seq<nat>, id: nat)
    requires Linked(nx, pv, h, s) && NoDup(s) && h !in s && id !in s && id != h && id < |nx|
    ensures pv[h] < |nx| && pv[h] != id
    ensures Linked(nx[id := h][pv[h] := id], pv[id := pv[h]][h := id], h, s + [id])
  {
    var p := Cell(h, s, |s|);
    assert Link(nx, pv, h, s, |s|) && Cell(h, s, |s| + 1) == h && pv[h] == p;
    var t := s + [id];
    var nx': seq<nat>, pv': seq<nat> := nx[id := h][p := id], pv[id := p][h := id];
    forall k | 0 <= k <= |t| ensures Link(nx', pv', h, t, k) {
      if k < |s| {
        assert Cell(h, t, k) == Cell(h, s, k) && Cell(h, t, k + 1) == Cell(h, s, k + 1);
        CellsDiffer(h, s, k, |s|);
        assert Link(nx, pv, h, s, k);
      }
    }
  }

  // ---------------------------------------------------------------- the rings of a worker

  /** Node `i` is the first member of socket `i` of the pool; the nodes after the
      sockets are the heads of the retransmit, keepalive and timeout rings. A
      pointer to a node is its index. */
  class Timers {
    const num: nat             // sockets
    const next: array<nat>
    const prev: array<nat>
    ghost var rings: Rings     // who is on which ring, in order

    function Head(r: Ring): nat
      requires r != NoRing
    {
      num + (match r case Retransmit => 0 case Keepalive => 1 case _ => 2)
    }

    ghost predicate Consistent(nx: seq<nat>, pv: seq<nat>, rs: Rings) {
      && |nx| == |pv| == num + 3
      && rs.WellFormed()
      && InRange(rs.rt, num) && InRange(rs.ka, num) && InRange(rs.to, num)
      && Linked(nx, pv, num, rs.rt) && Linked(nx, pv, num + 1, rs.ka) && Linked(nx, pv, num + 2, rs.to)
      && forall i :: 0 <= i < num && rs.Holder(i) == NoRing ==> nx[i] == i && pv[i] == i
    }

    ghost predicate Valid()
      reads this, next, prev
    {
      next != prev && next.Length == prev.Length == num + 3 && Consistent(next[..], prev[..], rings)
    }

    /** socket_timer_init, with socket_node_init for every socket. */
    constructor (num: nat)
      ensures Valid() && rings == Rings([], [], []) && this.num == num && fresh(next) && fresh(prev)
    {
      this.num := num;
      next := new nat[num + 3](i => i);
      prev := new nat[num + 3](i => i);
      rings := Rings([], [], []);
      new;
      EmptyConsistent(next[..], prev[..]);
    }

    lemma EmptyConsistent(nx: seq<nat>, pv: seq<nat>)
      requires |nx| == |pv| == num + 3
      requires forall i :: 0 <= i < |nx| ==> nx[i] == i && pv[i] == i
      ensures Consistent(nx, pv, Rings([], [], []))
    {
    }

    /** Rings other than `r` do not see a change at `r`'s cells and at nodes off the rings. */
    lemma OthersLinked(nx: seq<nat>, pv: seq<nat>, nx': seq<nat>, pv': seq<nat>, rs: Rings, r: Ring)
      requires Consistent(nx, pv, rs) && r != NoRing && |nx'| == |pv'| == |nx|
      requires forall x :: 0 <= x < |nx| && (if x < num then rs.Holder(x) !in {r, NoRing} else x != Head(r)) ==>
          nx'[x] == nx[x] && pv'[x] == pv[x]
      ensures forall q :: q != r && q != NoRing ==> Linked(nx', pv', Head(q), rs.Of(q))
    {
      forall q | q != r && q != NoRing ensures Linked(nx', pv', Head(q), rs.Of(q)) {
        forall x | x in rs.Of(q) ensures x < num && rs.Holder(x) == q {}
        Untouched(nx, pv, nx', pv', Head(q), rs.Of(q));
      }
    }

    /** A node on a ring, with its place there. */
    lemma OnRing(nx: seq<nat>, pv: seq<nat>, rs: Rings, id: nat) returns (h: nat, s: seq<nat>, i: nat)
      requires Consistent(nx, pv, rs) && id < num && rs.Holder(id) != NoRing
      ensures h == Head(rs.Holder(id)) && s == rs.Of(rs.Holder(id))
      ensures i < |s| && s[i] == id && Linked(nx, pv, h, s) && NoDup(s) && h !in s
    {
      h, s := Head(rs.Holder(id)), rs.Of(rs.Holder(id));
      i :| 0 <= i < |s| && s[i] == id;
    }

    lemma SelfLinkedIffOff(nx: seq<nat>, pv: seq<nat>, rs: Rings, id: nat)
      requires Consistent(nx, pv, rs) && id < num
      ensures nx[id] < |nx| && pv[id] < |nx|
      ensures nx[id] == id <==> rs.Holder(id) == NoRing
      ensures nx[id] == id ==> Place(rs, id, NoRing) == rs
    {
      if rs.Holder(id) != NoRing {
        var h, s, i := OnRing(nx, pv, rs, id);
        Neighbours(nx, pv, h, s, i);
      }
    }

    /** Changing the links of one ring `r` only. */
    lemma Patched(nx: seq<nat>, pv: seq<nat>, rs: Rings, r: Ring, nx': seq<nat>, pv': seq<nat>, rs': Rings)
      requires Consistent(nx, pv, rs) && r != NoRing && |nx'| == |pv'| == |nx|
      requires rs'.WellFormed() && forall q :: q != r ==> rs'.Of(q) == rs.Of(q)
      requires InRange(rs'.Of(r), num) && Linked(nx', pv', Head(r), rs'.Of(r))
      requires forall x :: 0 <= x < |nx| && (if x < num then rs.Holder(x) !in {r, NoRing} else x != Head(r)) ==>
          nx'[x] == nx[x] && pv'[x] == pv[x]
      requires forall i :: 0 <= i < num && rs'.Holder(i) == NoRing ==> nx'[i] == i && pv'[i] == i
      ensures Consistent(nx', pv', rs')
    {
      hide Linked, NoDup, InRange;
      OthersLinked(nx, pv, nx', pv', rs, r);
      RingDiffers(nx, pv, rs, Retransmit);
      assert rs'.Of(Retransmit) == rs'.rt && rs'.Of(Keepalive) == rs'.ka && rs'.Of(Timeout) == rs'.to;
      forall q | q != NoRing && q != r ensures InRange(rs'.Of(q), num) && Linked(nx', pv', Head(q), rs'.Of(q)) {
        assert rs'.Of(q) == rs.Of(q);
      }
    }

    /** Taking node `id` out, on indices. */
    lemma DelConsistent(nx: seq<nat>, pv: seq<nat>, rs: Rings, id: nat, p: nat, n: nat)
      requires Consistent(nx, pv, rs) && id < num && |nx| == |pv| == num + 3 && nx[id] != id
      requires p == pv[id] < |nx| && n == nx[id] < |nx|
      ensures Consistent(nx[p := n][id := id], pv[n := p][id := id], Place(rs, id, NoRing))
    {
      hide Linked, NoDup, Place, Without, Consistent;
      SelfLinkedIffOff(nx, pv, rs, id);
      var r := rs.Holder(id);
      var h, s, i := OnRing(nx, pv, rs, id);
      Neighbours(nx, pv, h, s, i);
      Bridged(nx, pv, h, s, i, p, n);
      WithoutAt(s, i);
      RingDiffers(nx, pv, rs, r);
      WithoutEach(rs, r, id);
      PlaceKeeps(rs, id, NoRing);
      DelPatched(nx, pv, rs, id, p, n, h, s, nx[p := n][id := id], pv[n := p][id := id], Place(rs, id, NoRing));
    }

    lemma DelPatched(nx: seq<nat>, pv: seq<nat>, rs: Rings, id: nat, p: nat, n: nat, h: nat, s: seq<nat>,
                     nx': seq<nat>, pv': seq<nat>, rs': Rings)
      requires Consistent(nx, pv, rs) && id < num && p < |nx| && n < |nx|
      requires rs.Holder(id) != NoRing && h == Head(rs.Holder(id)) && s == rs.Of(rs.Holder(id))
      requires (n == h || n in s) && (p == h || p in s)
      requires forall x :: x in s ==> x < num && rs.Holder(x) == rs.Holder(id)
      requires nx' == nx[p := n][id := id] && pv' == pv[n := p][id := id]
      requires InRange(rs'.Of(rs.Holder(id)), num) && Linked(nx', pv', h, rs'.Of(rs.Holder(id))) && rs'.WellFormed()
      requires forall q :: q != rs.Holder(id) ==> rs'.Of(q) == rs.Of(q)
      requires forall x :: x != id ==> rs'.Holder(x) == rs.Holder(x)
      requires rs'.Holder(id) == NoRing
      ensures Consistent(nx', pv', rs')
    {
      assert OffOnes(nx, pv, rs);
      hide Linked, NoDup, Consistent, InRange;
      assert OffOnes(nx', pv', rs');
      Patched(nx, pv, rs, rs.Holder(id), nx', pv', rs');
    }

    ghost predicate OffOnes(nx: seq<nat>, pv: seq<nat>, rs: Rings)
      requires num <= |nx| == |pv|
    {
      forall i :: 0 <= i < num && rs.Holder(i) == NoRing ==> nx[i] == i && pv[i] == i
    }

    /** The members of a ring are held by it, so other heads and the off-ring nodes are not among them. */
    lemma RingDiffers(nx: seq<nat>, pv: seq<nat>, rs: Rings, r: Ring)
      requires Consistent(nx, pv, rs) && r != NoRing
      ensures forall x :: x in rs.Of(r) ==> x < num && rs.Holder(x) == r
      ensures rs.WellFormed() && forall q :: q != NoRing ==> InRange(rs.Of(q), num)
    {
    }

    lemma WithoutEach(rs: Rings, r: Ring, id: nat)
      requires rs.WellFormed() && rs.Holder(id) == r != NoRing
      ensures Place(rs, id, NoRing).Of(r) == Without(rs.Of(r), id)
      ensures forall q :: q != r ==> Place(rs, id, NoRing).Of(q) == rs.Of(q)
    {
    }

    /** Linking node `id` in at the tail of ring `r`, on indices. */
    lemma PushConsistent(nx: seq<nat>, pv: seq<nat>, rs: Rings, id: nat, r: Ring, h: nat, p: nat)
      requires Consistent(nx, pv, rs) && id < num && |nx| == |pv| == num + 3
      requires r != NoRing && h == Head(r) && p == pv[h] && rs.Holder(id) == NoRing
      ensures p < |nx| && Consistent(nx[id := h][p := id], pv[id := p][h := id], Place(rs, id, r))
    {
      hide Linked, NoDup, Without, Consistent;
      var s := rs.Of(r);
      RingDiffers(nx, pv, rs, r);
      RingLinked(nx, pv, rs, r);
      Appended(nx, pv, h, s, id);
      Tail(nx, pv, h, s);
      PlaceKeeps(rs, id, r);
      var rs' := Place(rs, id, r);
      assert rs'.Of(r) == s + [id] && forall q :: q != r ==> rs'.Of(q) == rs.Of(q) by { AppendEach(rs, r, id); }
      hide Place;
      PushPatched(nx, pv, rs, id, r, p, h, nx[id := h][p := id], pv[id := p][h := id], rs');
    }

    lemma RingLinked(nx: seq<nat>, pv: seq<nat>, rs: Rings, r: Ring)
      requires Consistent(nx, pv, rs) && r != NoRing
      ensures Linked(nx, pv, Head(r), rs.Of(r)) && NoDup(rs.Of(r))
    {
    }

    lemma Tail(nx: seq<nat>, pv: seq<nat>, h: nat, s: seq<nat>)
      requires Linked(nx, pv, h, s)
      ensures pv[h] == h || pv[h] in s
    {
      assert Link(nx, pv, h, s, |s|);
    }

    lemma AppendEach(rs: Rings, r: Ring, id: nat)
      requires rs.Holder(id) == NoRing && r != NoRing
      ensures Place(rs, id, r).Of(r) == rs.Of(r) + [id]
      ensures forall q :: q != r ==> Place(rs, id, r).Of(q) == rs.Of(q)
    {
    }

    lemma PushPatched(nx: seq<nat>, pv: seq<nat>, rs: Rings, id: nat, r: Ring, p: nat, h: nat,
                      nx': seq<nat>, pv': seq<nat>, rs': Rings)
      requires Consistent(nx, pv, rs) && id < num && |nx| == |pv| == num + 3 && p < |nx|
      requires r != NoRing && h == Head(r) && rs.Holder(id) == NoRing && rs'.Holder(id) == r
      requires (p == h || p in rs.Of(r)) && forall x :: x in rs.Of(r) ==> x < num && rs.Holder(x) == r
      requires nx' == nx[id := h][p := id] && pv' == pv[id := p][h := id]
      requires rs'.Of(r) == rs.Of(r) + [id] && InRange(rs.Of(r), num) && Linked(nx', pv', h, rs'.Of(r))
      requires rs'.WellFormed()
      requires forall q :: q != r ==> rs'.Of(q) == rs.Of(q)
      requires forall x :: x != id ==> rs'.Holder(x) == rs.Holder(x)
      ensures Consistent(nx', pv', rs')
    {
      assert OffOnes(nx, pv, rs);
      assert InRange(rs'.Of(r), num);
      hide Linked, NoDup, Consistent, InRange;
      assert OffOnes(nx', pv', rs');
      Patched(nx, pv, rs, r, nx', pv', rs');
    }

    /** socket_node_del: off whichever ring holds the node, nothing if none does. */
    method Del(sn: nat)
      requires Valid() && sn < num
      modifies this, next, prev
      ensures Valid() && rings == Place(old(rings), sn, NoRing)
    {
      hide Consistent, Place;
      SelfLinkedIffOff(next[..], prev[..], rings, sn);
      var p, n := prev[sn], next[sn];
      if sn != n {
        DelConsistent(next[..], prev[..], rings, sn, p, n);
        next[p] := n;
        prev[n] := p;
        next[sn] := sn;
        prev[sn] := sn;
      }
      rings := Place(rings, sn, NoRing);
    }

    /** socket_queue_push: the node goes in front of the head, that is at the tail. */
    method Push(sn: nat, r: Ring)
      requires Valid() && sn < num && r != NoRing && rings.Holder(sn) == NoRing
      modifies this, next, prev
      ensures Valid() && rings == Place(old(rings), sn, r)
    {
      hide Consistent, Place;
      var h := Head(r);
      var p := prev[h];
      PushConsistent(next[..], prev[..], rings, sn, r, h, p);
      next[sn] := h;
      prev[sn] := p;
      prev[h] := sn;
      next[p] := sn;
      rings := Place(rings, sn, r);
    }

    /** socket_queue_first: the head's successor, or nothing when the ring is empty. */
    method First(r: Ring) returns (sn: Option)
      requires Valid() && r != NoRing
      ensures if rings.Of(r) == [] then sn == None else sn == Some(rings.Of(r)[0]) && sn.id < num
    {
      var h := Head(r);
      FirstIs(next[..], prev[..], rings, r);
      if next[h] != h { sn := Some(next[h]); } else { sn := None; }
    }

    lemma FirstIs(nx: seq<nat>, pv: seq<nat>, rs: Rings, r: Ring)
      requires Consistent(nx, pv, rs) && r != NoRing
      ensures nx[Head(r)] == if rs.Of(r) == [] then Head(r) else rs.Of(r)[0]
      ensures rs.Of(r) != [] ==> rs.Of(r)[0] < num
    {
      assert Link(nx, pv, Head(r), rs.Of(r), 0);
    }

    /** The list part of socket_add_timer. */
    method Add(sn: nat, r: Ring)
      requires Valid() && sn < num && r != NoRing
      modifies this, next, prev
      ensures Valid() && rings == Place(old(rings), sn, r)
    {
      hide Consistent;
      RingDiffers(next[..], prev[..], rings, r);
      PlaceKeeps(rings, sn, NoRing);
      PlaceAgain(rings, sn, NoRing, r);
      hide Place;
      Del(sn);
      Push(sn, r);
    }
  }
}
