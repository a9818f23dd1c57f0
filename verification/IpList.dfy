/** Lists of destination addresses: built up, dealt out to the workers, and read in a circle. */
module IpList {
  import opened Radix
  import opened RoundRobin

  const Max := 65536     // IP_LIST_NUM_MAX

  datatype Family = Inet | Inet6 | OtherFamily

  /** The part dealt out: every `step`-th element from `start` on. */
  function Every<T>(s: seq<T>, start: nat, step: nat): (r: seq<T>)
    requires step > 0
    decreases |s| - start
  {
    if start >= |s| then [] else [s[start]] + Every(s, start + step, step)
  }

  lemma EveryFrom<T>(s: seq<T>, i: nat, step: nat)
    requires step > 0 && i < |s|
    ensures Every(s, i, step) == [s[i]] + Every(s, i + step, step)
  {
  }

  lemma Append<T>(s: seq<T>, x: T, t: seq<T>)
    ensures s + ([x] + t) == s + [x] + t
  {
  }

  class List<T(==)> {
    const ip: array<T>
    var num: nat
    var next: nat
    var af: Family

    ghost predicate Valid()
      reads this
    {
      ip.Length == Max && num <= Max && (next == 0 || next < num)
    }

    ghost function Contents(): seq<T>
      requires num <= ip.Length
      reads this, ip
    {
      ip[..num]
    }

    constructor (zero: T)
      ensures Valid() && Contents() == [] && next == 0 && fresh(ip)
    {
      ip := new T[Max](_ => zero);
      num, next, af := 0, 0, OtherFamily;
    }

    /** ip_list_add: one family for the whole list, and room for so many. */
    method Add(family: Family, addr: T) returns (ok: bool)
      requires Valid()
      modifies this`num, this`af, ip
      ensures Valid() && next == old(next)
      ensures ok <==> family != OtherFamily && old(num) < Max && (old(num) == 0 || old(af) == family)
      ensures if ok then Contents() == old(Contents()) + [addr] && af == family
              else Contents() == old(Contents()) && af == old(af)
    {
      if family == OtherFamily { return false; }
      if num >= Max { return false; }
      if num == 0 {
        af := family;
      } else if af != family {
        return false;
      }
      ip[num] := addr;
      num := num + 1;
      return true;
    }

    /** ip_list_split; -1 is an error, otherwise the number of elements in `sub`. */
    method Split(sub: List<T>, start: int, step: int) returns (r: int)
      requires Valid() && sub.Valid() && sub != this && sub.ip != ip
      modifies sub`num, sub`next, sub`af, sub.ip
      ensures sub.Valid()
      ensures if start < 0 || step <= 0 then r == -1 && sub.Contents() == old(sub.Contents())
              else r == sub.num && sub.next == 0 && sub.af == af && sub.Contents() == Every(Contents(), start, step)
    {
      if start < 0 || step <= 0 { return -1; }
      sub.num, sub.next, sub.af := 0, 0, af;
      var i := start;
      ghost var s := Contents();
      while i < num
        invariant start <= i && sub.num + start <= i && sub.num <= num && num == old(num) && sub.next == 0
        invariant sub.af == af
        invariant i >= num || sub.num < num
        invariant Contents() == s == old(Contents())
        invariant sub.Contents() + Every(s, i, step) == Every(s, start, step)
      {
        hide Every;
        EveryFrom(s, i, step);
        ghost var done := sub.Contents();
        sub.ip[sub.num] := ip[i];
        sub.num := sub.num + 1;
        i := i + step;
        assert sub.Contents() == done + [s[i - step]];
        Append(done, s[i - step], Every(s, i, step));
      }
      return sub.num;
    }

    /** ip_list_get_next_ipv4 and _ipv6. */
    method GetNext() returns (addr: T)
      requires Valid() && num > 0
      modifies this`next
      ensures Valid() && addr == Contents()[old(next)]
      ensures next == AfterPick(old(next), num, false)
    {
      addr := ip[next];
      next := next + 1;
      if next >= num { next := 0; }
    }
  }

  // ---------------------------------------------------------------- reading in a circle

  /** The addresses of `k` calls of get-next. */
  function Reads<T>(s: seq<T>, next: nat, k: nat): seq<T>
    requires next < |s|
    decreases k
  {
    if k == 0 then [] else [s[next]] + Reads(s, AfterPick(next, |s|, false), k - 1)
  }

  lemma {:induction false} ReadsAt<T>(s: seq<T>, next: nat, k: nat, j: nat)
    requires next < |s| && j < k
    ensures |Reads(s, next, k)| == k && Pick(next, |s|, j) < |s| && Reads(s, next, k)[j] == s[Pick(next, |s|, j)]
    decreases k
  {
    if k > 1 { ReadsAt(s, AfterPick(next, |s|, false), k - 1, if j > 0 then j - 1 else 0); }
  }

  /** One cycle of reads gives the whole list, turned to begin at the cursor. */
  lemma CycleReadsAll<T>(s: seq<T>, next: nat)
    requires next < |s|
    ensures Reads(s, next, |s|) == s[next..] + s[..next]
  {
    forall j | 0 <= j < |s|
      ensures |Reads(s, next, |s|)| == |s| && Reads(s, next, |s|)[j] == (s[next..] + s[..next])[j] {
      ReadsAt(s, next, |s|, j);
      PickIs(next, |s|, j);
    }
    ReadsAt(s, next, |s|, 0);
  }

  // ---------------------------------------------------------------- the split is a partition

  /** Element `k` of a worker's list is element `start + k * step` of the whole. */
  lemma {:induction false} EveryAt<T>(s: seq<T>, start: nat, step: nat, k: nat)
    requires step > 0
    ensures k < |Every(s, start, step)| <==> start + k * step < |s|
    ensures k < |Every(s, start, step)| ==> Every(s, start, step)[k] == s[start + k * step]
    decreases |s| - start
  {
    if start < |s| {
      if k > 0 {
        EveryAt(s, start + step, step, k - 1);
        assert start + k * step == start + step + (k - 1) * step;
      }
    } else {
      assert k * step >= 0;
    }
  }

  /** Position `i` of the configured list is dealt to worker `w` as its element `k`. */
  predicate DealtTo<T>(s: seq<T>, workers: nat, i: nat, w: nat, k: nat)
    requires workers > 0
  {
    w < workers && k < |Every(s, w, workers)| && i == w + k * workers
  }

  /** Every position is dealt to exactly one place of exactly one worker, with its
      address; and every place of a worker comes from a position. */
  lemma SplitPartitions<T>(s: seq<T>, workers: nat, i: nat)
    requires workers > 0 && i < |s|
    ensures DealtTo(s, workers, i, i % workers, i / workers)
    ensures forall w, k :: DealtTo(s, workers, i, w, k) ==> w == i % workers && k == i / workers
    ensures Every(s, i % workers, workers)[i / workers] == s[i]
  {
    var w, k := i % workers, i / workers;
    assert i == w + k * workers;
    EveryAt(s, w, workers, k);
    forall w', k' | DealtTo(s, workers, i, w', k') ensures w' == w && k' == k {
      Unique(workers, w', k', w, k);
    }
  }

  lemma Unique(n: nat, w: nat, k: nat, w': nat, k': nat)
    requires w < n && w' < n && w + k * n == w' + k' * n
    ensures w == w' && k == k'
  {
    Digits(k, w, n);
    Digits(k', w', n);
  }
}
