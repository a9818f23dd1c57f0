/** All the sockets of a worker, one of which is handed to a handler and put back. */
module Sites {
  import opened Rings
  import opened Tcp
  import opened Invariants

  /** The sockets and what their handlers share. */
  datatype Site = Site(socks: seq<Sock>, rings: Rings, stats: Stats, sent: seq<Segment>, pool: seq<bool>)

  function At(v: Site, i: nat): St
    requires i < |v.socks|
  {
    St(v.socks[i], v.rings, v.stats, v.sent, v.pool)
  }

  function Put(v: Site, i: nat, st: St): Site
    requires i < |v.socks|
  {
    Site(v.socks[i := st.sk], st.rings, st.stats, st.sent, st.pool)
  }

  /** Each socket is sound, at its own index, and on the ring its holder says. */
  ghost predicate Fit(cfg: Config, m: bool, v: Site) {
    && v.rings.WellFormed()
    && (forall i :: 0 <= i < |v.socks| ==>
          v.socks[i].id == i && Sound(cfg, m, v.socks[i]) && v.rings.Holder(i) == v.socks[i].ring)
    && (forall x :: x >= |v.socks| ==> v.rings.Holder(x) == NoRing)
  }

  /** Any handler that keeps its own socket keeps the site. */
  lemma PutFits(cfg: Config, m: bool, now: nat, v: Site, i: nat, r: St)
    requires Fit(cfg, m, v) && i < |v.socks| && Keeps(cfg, m, now, At(v, i), r)
    ensures Fit(cfg, m, Put(v, i, r))
  {
    FollowsFits(cfg, now, At(v, i), r);
  }
}
