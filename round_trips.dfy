/** How the write operations and the read operations fit together. */
module RoundTrips {
  import opened Types
  import opened Options
  import opened Validation
  import opened WriteSpec
  import opened ReadSpec

  /** After AddBlock succeeds, getBlock finds a block under that identifier
      in the store without going to the network; it is the added block
      itself unless the existence check found one already there. */
  lemma AddThenGet(cfg: Config, store: Store, b: Block, o1: Oracle, fetcher: Option<Fetcher>, o2: Oracle)
    requires WellKeyed(store)
    requires AddBlockSpec(cfg, store, b, o1).result.None?
    requires b.cid !in o2.getErr
    ensures var after := AddBlockSpec(cfg, store, b, o1).store;
            var e := GetBlockSpec(cfg, after, b.cid, fetcher, o2);
            && e.result.Ok? && e.result.value.cid == b.cid
            && e.events == [GetCall(b.cid)] && e.store == after
            && (after != store ==> e.result.value == b)
  {
  }

  /** After DeleteBlock succeeds, getBlock of that identifier misses the
      store: without a fetcher it fails with "not found". */
  lemma DeleteThenGet(cfg: Config, store: Store, c: Cid, o1: Oracle, o2: Oracle)
    requires DeleteBlockSpec(store, c, o1).result.None?
    requires Allowed(cfg.allowlist, c) && c !in o2.getErr
    ensures var after := DeleteBlockSpec(store, c, o1).store;
            GetBlockSpec(cfg, after, c, None, o2) == Effect(Err(NotFound(c)), after, [GetCall(c), FactoryCall])
  {
  }

  /** After a successful delete, AddBlock of that block writes it again:
      with the existence check on, the store says it is absent. */
  lemma DeleteThenAdd(cfg: Config, store: Store, b: Block, o1: Oracle, o2: Oracle)
    requires DeleteBlockSpec(store, b.cid, o1).result.None?
    requires Allowed(cfg.allowlist, b.cid) && b.cid !in o2.hasErr && PutAnswer(o2, b).None?
    ensures var after := DeleteBlockSpec(store, b.cid, o1).store;
            var e := AddBlockSpec(cfg, after, b, o2);
            && e.result.None? && b.cid in e.store && e.store[b.cid] == b
            && e.events == ExistenceCheck(cfg, b.cid) + [PutCall(b)] + Announcements(cfg, [b])
  {
  }

  /** After AddBlocks succeeds, getBlock finds every identifier of the batch
      in the store without going to the network. With the existence check off,
      the block found is the batch's last block with that identifier. */
  lemma AddBlocksThenGet(cfg: Config, store: Store, bs: seq<Block>, o1: Oracle, i: nat, fetcher: Option<Fetcher>, o2: Oracle)
    requires WellKeyed(store)
    requires AddBlocksSpec(cfg, store, bs, o1).result.None?
    requires i < |bs| && bs[i].cid !in o2.getErr
    ensures var after := AddBlocksSpec(cfg, store, bs, o1).store;
            var e := GetBlockSpec(cfg, after, bs[i].cid, fetcher, o2);
            && e.result.Ok? && e.result.value.cid == bs[i].cid
            && e.events == [GetCall(bs[i].cid)] && e.store == after
            && (!cfg.checkFirst && (forall j :: i < j < |bs| ==> bs[j].cid != bs[i].cid) ==> e.result.value == bs[i])
  {
    var c := bs[i].cid;
    assert FirstInvalid(cfg.allowlist, Cids(bs)) == |bs|;
    assert Allowed(cfg.allowlist, Cids(bs)[i]);
    var scan := ToPut(cfg, store, bs, o1);
    var toput := scan.result.value;
    var after := AddBlocksSpec(cfg, store, bs, o1).store;
    PutAllWrites(store, toput);
    if cfg.checkFirst {
      HasScanCovers(o1, store, bs);
    }
    assert c in store || bs[i] in toput;
    if toput != [] {
      assert after == PutAll(store, toput);
      if bs[i] in toput {
        var k :| 0 <= k < |toput| && toput[k] == bs[i];
        assert c == Cids(toput)[k];
      }
      if !cfg.checkFirst && (forall j :: i < j < |bs| ==> bs[j].cid != c) {
        PutAllStores(store, bs, i);
      }
    }
    assert c in after && WellKeyed(after);
  }
}
