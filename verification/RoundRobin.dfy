/** A cursor that goes round: over the socket pool and over address lists. */
module RoundRobin {

  /** Where the cursor goes next; client_hop skips 65535 more. */
  function AfterPick(next: nat, num: nat, hop: bool): nat {
    var n := if next + 1 >= num then 0 else next + 1;
    if !hop then n else if n + 65535 >= num then 0 else n + 65535
  }

  /** The `k`-th pick from now. */
  function Pick(next: nat, num: nat, k: nat): nat
    decreases k
  {
    if k == 0 then next else Pick(AfterPick(next, num, false), num, k - 1)
  }

  lemma {:induction false} PickIs(next: nat, num: nat, k: nat)
    requires next < num && k < num
    ensures Pick(next, num, k) == if next + k < num then next + k else next + k - num
    decreases k
  {
    if k > 0 { PickIs(AfterPick(next, num, false), num, k - 1); }
  }

  /** Without client_hop any `num` picks in a row give every socket exactly once. */
  lemma EverySocketOnce(next: nat, num: nat, s: nat)
    requires next < num && s < num
    ensures exists k :: 0 <= k < num && Pick(next, num, k) == s
    ensures forall j, k :: 0 <= j < num && 0 <= k < num && Pick(next, num, j) == s && Pick(next, num, k) == s ==> j == k
  {
    var k := if s >= next then s - next else s + num - next;
    PickIs(next, num, k);
    forall j | 0 <= j < num && Pick(next, num, j) == s ensures j == k {
      PickIs(next, num, j);
    }
  }

  // ---------------------------------------------------------------- client_hop

  /** The `k`-th pick from now with client_hop. */
  function HopPick(next: nat, num: nat, k: nat): nat
    decreases k
  {
    if k == 0 then next else HopPick(AfterPick(next, num, true), num, k - 1)
  }

  const STEP := 65536

  /** How many sockets of the pool are whole steps away from the first. */
  function Stops(num: nat): nat { (num + STEP - 1) / STEP }

  lemma OneBehind(j: nat)
    ensures (STEP * j + 1) % STEP == 1
  {
  }

  lemma HopIsPick(j: nat, num: nat)
    requires (num == 1 || num % STEP != 1) && j < Stops(num)
    ensures AfterPick(STEP * j, num, true) == STEP * AfterPick(j, Stops(num), false)
  {
    var m := Stops(num);
    assert STEP * m - STEP < num <= STEP * m;
    OneBehind(j);
  }

  /** With client_hop a pool is picked like one of its every 65536-th sockets alone, from the first
      on, unless just one socket lies behind the last whole step. */
  lemma {:induction false} HopPicks(j: nat, num: nat, k: nat)
    requires (num == 1 || num % STEP != 1) && j < Stops(num)
    ensures HopPick(STEP * j, num, k) == STEP * Pick(j, Stops(num), k)
    decreases k
  {
    if k > 0 {
      HopIsPick(j, num);
      HopPicks(AfterPick(j, Stops(num), false), num, k - 1);
    }
  }

  /** So every socket whole steps away is picked once a round, and, whatever the size of the pool,
      no socket but those and the ones before them is ever picked. */
  lemma HopPicksFew(num: nat, s: nat)
    requires s < num
    ensures num == 1 || num % STEP != 1 ==>
              ((exists k :: HopPick(0, num, k) == s) <==> s % STEP == 0)
    ensures (exists k :: HopPick(0, num, k) == s) ==> s % STEP in {0, STEP - 1}
  {
    forall k ensures HopPick(0, num, k) % STEP in {0, STEP - 1} {
      HopMisses(0, num, k);
    }
    if num == 1 || num % STEP != 1 {
      forall k ensures HopPick(0, num, k) == STEP * Pick(0, Stops(num), k) {
        HopPicks(0, num, k);
      }
      if s % STEP == 0 {
        var j := s / STEP;
        EverySocketOnce(0, Stops(num), j);
        var k: nat :| k < Stops(num) && Pick(0, Stops(num), k) == j;
        assert HopPick(0, num, k) == s;
      }
    }
  }

  lemma {:induction false} HopMisses(next: nat, num: nat, k: nat)
    requires next % STEP in {0, STEP - 1}
    ensures HopPick(next, num, k) % STEP in {0, STEP - 1}
    decreases k
  {
    if k > 0 { HopMisses(AfterPick(next, num, true), num, k - 1); }
  }
}
