/** The read path is handed a block service through its public interface and
    asks it for its exchange, its allowlist and its provider. Only a service
    that exposes an allowlist has its own; only one that exposes a provider
    gets its fetched blocks advertised. */
module Selectors {
  import opened Types
  import opened Options
  import opened Validation
  import opened ReadSpec

  /** A block service as the read path sees it: its configuration, and
      whether it exposes its allowlist (`bounded`) and its provider
      (`providing`). The service of this model exposes both. */
  datatype Handle = Handle(cfg: Config, bounded: bool, providing: bool)

  /** The allowlist the read path checks identifiers against. */
  function GrabAllowlist(h: Handle, defaultAllowlist: Allowlist): (a: Allowlist)
    ensures h.bounded ==> a == h.cfg.allowlist
    ensures !h.bounded ==> a == defaultAllowlist
  {
    if h.bounded then h.cfg.allowlist else defaultAllowlist
  }

  /** The provider the read path advertises to; none for a service that
      does not expose one. */
  function GrabProvider(h: Handle): (p: Option<Provider>)
    ensures h.providing ==> p == h.cfg.provider
    ensures !h.providing ==> p.None?
  {
    if h.providing then h.cfg.provider else None
  }

  /** The configuration getBlock and getBlocks act on. */
  function ReadConfig(h: Handle, defaultAllowlist: Allowlist): Config {
    h.cfg.(allowlist := GrabAllowlist(h, defaultAllowlist), provider := GrabProvider(h))
  }

  /** For a service that exposes both, the read path acts on the service's
      own configuration. */
  lemma OwnHandle(h: Handle, defaultAllowlist: Allowlist)
    requires h.bounded && h.providing
    ensures ReadConfig(h, defaultAllowlist) == h.cfg
  {
  }

  /** getBlock through a service that exposes no provider never advertises. */
  lemma GetBlockNeverAdvertises(h: Handle, defaultAllowlist: Allowlist, store: Store, c: Cid,
                                fetcher: Option<Fetcher>, o: Oracle)
    requires !h.providing
    ensures forall e :: e in GetBlockSpec(ReadConfig(h, defaultAllowlist), store, c, fetcher, o).events ==> !e.ProvideCall?
  {
  }

  /** getBlocks through a service that exposes no provider never advertises. */
  lemma GetBlocksNeverAdvertise(h: Handle, defaultAllowlist: Allowlist, store: Store, ks: seq<Cid>,
                                fetcher: Option<Fetcher>, o: Oracle, cancel: Option<nat>)
    requires !h.providing
    ensures forall e :: e in GetBlocksSpec(ReadConfig(h, defaultAllowlist), store, ks, fetcher, o, cancel).events ==> !e.ProvideCall?
  {
    var cfg := ReadConfig(h, defaultAllowlist);
    var valid := Allowlisted(cfg.allowlist, ks);
    var t0 := Task(store, [], [], [], true);
    var local := LocalScan(o, cancel, t0, valid);
    LocalScanShape(o, cancel, t0, valid);
    assert forall i :: 0 <= i < |local.events| ==> !local.events[i].ProvideCall?;
    if local.live && |local.misses| != 0 && fetcher.Some? && o.fetchMany.Ok? {
      var dispatched := local.(events := local.events + [FactoryCall] + [FetchManyCall(fetcher.value, local.misses)]);
      NetScanNoProvide(cfg, o, cancel, dispatched, o.fetchMany.value);
    }
  }

  /** Without a provider, the network phase of getBlocks adds no
      advertisement. */
  lemma {:induction false} NetScanNoProvide(cfg: Config, o: Oracle, cancel: Option<nat>, t: Task, arrivals: seq<Block>)
    requires cfg.provider.None?
    requires forall i :: 0 <= i < |t.events| ==> !t.events[i].ProvideCall?
    ensures forall e :: e in NetScan(cfg, o, cancel, t, arrivals).events ==> !e.ProvideCall?
    decreases |arrivals|
  {
    if !t.live || arrivals == [] {
      assert forall e :: e in t.events ==> exists i :: 0 <= i < |t.events| && t.events[i] == e;
    } else {
      var b := arrivals[0];
      var next := NetStep(cfg, o, cancel, t, b);
      if !Cancelled(cancel, |t.out|) {
        NetStepCalls(cfg, o, cancel, t, b);
        assert forall i :: 0 <= i < |StepCalls(cfg, o, b)| ==> !StepCalls(cfg, o, b)[i].ProvideCall?;
      }
      NetScanNoProvide(cfg, o, cancel, next, arrivals[1..]);
    }
  }
}
