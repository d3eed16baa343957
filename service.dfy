/** The block service and its sessions as objects. The service holds its
    configuration, which never changes, and the contents of the blockstore,
    which its operations update; a ghost trace records every collaborator
    call in order. Each operation is proved to do what the functions of
    WriteSpec and ReadSpec say. */
module Service {
  import opened Types
  import opened Options
  import opened Validation
  import opened WriteSpec
  import opened ReadSpec

  class BlockService {
    const cfg: Config
    var blocks: Store
    ghost var trace: seq<Event>

    ghost predicate Valid()
      reads this
    {
      WellKeyed(blocks)
    }

    /** New: the defaults, then every option in order. */
    constructor (store: Store, exchange: Option<Exchange>, defaultAllowlist: Allowlist, opts: seq<ServiceOption>)
      requires WellKeyed(store)
      ensures cfg == NewConfig(exchange, defaultAllowlist, opts)
      ensures blocks == store && trace == []
      ensures Valid()
    {
      var c := Defaults(exchange, defaultAllowlist);
      for i := 0 to |opts|
        invariant c == ApplyAll(Defaults(exchange, defaultAllowlist), opts[..i])
      {
        assert opts[..i + 1][..i] == opts[..i];
        c := Apply(c, opts[i]);
      }
      assert opts[..|opts|] == opts;
      cfg := c;
      blocks := store;
      trace := [];
    }

    // The collaborators. Each call is recorded on the trace and answered
    // as the oracle says.

    method StoreHas(c: Cid, o: Oracle) returns (r: Result<bool>)
      modifies this`trace
      ensures r == HasAnswer(o, blocks, c)
      ensures trace == old(trace) + [HasCall(c)]
    {
      trace := trace + [HasCall(c)];
      r := HasAnswer(o, blocks, c);
    }

    method StoreGet(c: Cid, o: Oracle) returns (r: Result<Block>)
      modifies this`trace
      ensures r == GetAnswer(o, blocks, c)
      ensures trace == old(trace) + [GetCall(c)]
    {
      trace := trace + [GetCall(c)];
      r := GetAnswer(o, blocks, c);
    }

    method StorePut(b: Block, o: Oracle) returns (err: Option<Error>)
      modifies this`blocks, this`trace
      ensures err == PutAnswer(o, b)
      ensures blocks == if err.None? then old(blocks)[b.cid := b] else old(blocks)
      ensures trace == old(trace) + [PutCall(b)]
    {
      trace := trace + [PutCall(b)];
      err := PutAnswer(o, b);
      if err.None? {
        blocks := blocks[b.cid := b];
      }
    }

    method StorePutMany(bs: seq<Block>, o: Oracle) returns (err: Option<Error>)
      modifies this`blocks, this`trace
      ensures err == o.putManyErr
      ensures blocks == if err.None? then PutAll(old(blocks), bs) else old(blocks)
      ensures trace == old(trace) + [PutManyCall(bs)]
    {
      trace := trace + [PutManyCall(bs)];
      err := o.putManyErr;
      if err.None? {
        blocks := PutAll(blocks, bs);
      }
    }

    method StoreDelete(c: Cid, o: Oracle) returns (err: Option<Error>)
      modifies this`blocks, this`trace
      ensures err == DeleteAnswer(o, c)
      ensures blocks == if err.None? then old(blocks) - {c} else old(blocks)
      ensures trace == old(trace) + [DeleteCall(c)]
    {
      trace := trace + [DeleteCall(c)];
      err := DeleteAnswer(o, c);
      if err.None? {
        blocks := blocks - {c};
      }
    }

    method NotifyNewBlocks(bs: seq<Block>, o: Oracle) returns (err: Option<Error>)
      modifies this`trace
      ensures err == NotifyAnswer(o, bs)
      ensures trace == old(trace) + [NotifyCall(bs)]
    {
      trace := trace + [NotifyCall(bs)];
      err := NotifyAnswer(o, bs);
    }

    method Provide(c: Cid, o: Oracle) returns (err: Option<Error>)
      modifies this`trace
      ensures err == ProvideAnswer(o, c)
      ensures trace == old(trace) + [ProvideCall(c)]
    {
      trace := trace + [ProvideCall(c)];
      err := ProvideAnswer(o, c);
    }

    method Fetch(f: Fetcher, c: Cid, o: Oracle) returns (r: Result<Block>)
      modifies this`trace
      ensures r == o.fetchOne
      ensures trace == old(trace) + [FetchCall(f, c)]
    {
      trace := trace + [FetchCall(f, c)];
      r := o.fetchOne;
    }

    method FetchMany(f: Fetcher, cids: seq<Cid>, o: Oracle) returns (r: Result<seq<Block>>)
      modifies this`trace
      ensures r == o.fetchMany
      ensures trace == old(trace) + [FetchManyCall(f, cids)]
    {
      trace := trace + [FetchManyCall(f, cids)];
      r := o.fetchMany;
    }

    /** The existence scan of AddBlocks: one check per block, in order,
        stopping at the first error. */
    method CheckPresence(bs: seq<Block>, o: Oracle) returns (toput: seq<Block>, err: Option<Error>)
      modifies this`trace
      ensures var scan := HasScan(o, blocks, bs);
              && (err.Some? <==> scan.result.Err?)
              && (err.Some? ==> err.value == scan.result.error)
              && (err.None? ==> toput == scan.result.value)
              && trace == old(trace) + scan.events
    {
      toput := [];
      ghost var evs: seq<Event> := [];
      for i := 0 to |bs|
        invariant HasScan(o, blocks, bs[..i]) == Scan(Ok(toput), evs)
        invariant trace == old(trace) + evs
      {
        assert bs[..i + 1][..i] == bs[..i];
        var has := StoreHas(bs[i].cid, o);
        evs := evs + [HasCall(bs[i].cid)];
        if has.Err? {
          HasScanSticks(o, blocks, bs, i + 1);
          return toput, Some(has.error);
        }
        if !has.value {
          toput := toput + [bs[i]];
        }
      }
      assert bs[..|bs|] == bs;
      err := None;
    }

    /** One advertisement per written block, in order; failures are dropped. */
    method ProvideEach(written: seq<Block>, o: Oracle)
      modifies this`trace
      ensures trace == old(trace) + ProvideCalls(written)
    {
      for i := 0 to |written|
        invariant trace == old(trace) + ProvideCalls(written[..i])
      {
        assert ProvideCalls(written[..i + 1]) == ProvideCalls(written[..i]) + [ProvideCall(written[i].cid)];
        var _ := Provide(written[i].cid, o);
      }
      assert written[..|written|] == written;
    }

    // The operations.

    method AddBlock(b: Block, o: Oracle) returns (err: Option<Error>)
      requires Valid()
      modifies this`blocks, this`trace
      ensures var e := AddBlockSpec(cfg, old(blocks), b, o);
              err == e.result && blocks == e.store && trace == old(trace) + e.events
      ensures Valid()
    {
      var c := b.cid;
      err := ValidateCid(cfg.allowlist, c);
      if err.Some? {
        return;
      }
      if cfg.checkFirst {
        var has := StoreHas(c, o);
        if has.Err? {
          return Some(has.error);
        }
        if has.value {
          return None;
        }
      }
      err := StorePut(b, o);
      if err.Some? {
        return;
      }
      if cfg.exchange.Some? {
        var _ := NotifyNewBlocks([b], o);
      }
      if cfg.provider.Some? {
        var _ := Provide(c, o);
      }
      err := None;
    }

    method AddBlocks(bs: seq<Block>, o: Oracle) returns (err: Option<Error>)
      requires Valid()
      modifies this`blocks, this`trace
      ensures var e := AddBlocksSpec(cfg, old(blocks), bs, o);
              err == e.result && blocks == e.store && trace == old(trace) + e.events
      ensures Valid()
    {
      err := CheckBatch(bs);
      if err.None? {
        err := AddCheckedBlocks(bs, o);
      }
    }

    /** AddBlocks once every identifier passed the hash-security check. */
    method AddCheckedBlocks(bs: seq<Block>, o: Oracle) returns (err: Option<Error>)
      requires Valid()
      modifies this`blocks, this`trace
      ensures var e := AddCheckedSpec(cfg, old(blocks), bs, o);
              err == e.result && blocks == e.store && trace == old(trace) + e.events
      ensures Valid()
    {
      var toput;
      toput, err := ChooseToPut(bs, o);
      if err.None? {
        ghost var scanned := ToPut(cfg, blocks, bs, o).events;
        err := WriteBatch(toput, o);
        Assoc(old(trace), scanned, WriteBatchSpec(cfg, old(blocks), toput, o).events);
      }
    }

    /** The hash-security pass of AddBlocks: the first rejected identifier
        fails the batch. */
    method CheckBatch(bs: seq<Block>) returns (err: Option<Error>)
      ensures err.None? <==> FirstInvalid(cfg.allowlist, Cids(bs)) == |bs|
      ensures err.Some? ==> err == Some(UnsafeHash(bs[FirstInvalid(cfg.allowlist, Cids(bs))].cid))
    {
      for i := 0 to |bs|
        invariant forall j :: 0 <= j < i ==> Allowed(cfg.allowlist, bs[j].cid)
      {
        err := ValidateCid(cfg.allowlist, bs[i].cid);
        if err.Some? {
          assert FirstInvalid(cfg.allowlist, Cids(bs)) == i;
          return;
        }
      }
      assert FirstInvalid(cfg.allowlist, Cids(bs)) == |bs|;
      err := None;
    }

    /** The blocks AddBlocks goes on to write: the existence scan's outcome
        with the check on, the whole batch in write-through mode. */
    method ChooseToPut(bs: seq<Block>, o: Oracle) returns (toput: seq<Block>, err: Option<Error>)
      modifies this`trace
      ensures var scan := ToPut(cfg, blocks, bs, o);
              && (err.Some? <==> scan.result.Err?)
              && (err.Some? ==> err.value == scan.result.error)
              && (err.None? ==> toput == scan.result.value)
              && trace == old(trace) + scan.events
    {
      if cfg.checkFirst {
        toput, err := CheckPresence(bs, o);
      } else {
        toput, err := bs, None;
      }
    }

    /** The write half of AddBlocks. */
    method WriteBatch(toput: seq<Block>, o: Oracle) returns (err: Option<Error>)
      requires Valid()
      modifies this`blocks, this`trace
      ensures var e := WriteBatchSpec(cfg, old(blocks), toput, o);
              err == e.result && blocks == e.store && trace == old(trace) + e.events
      ensures Valid()
    {
      if |toput| == 0 {
        return None;
      }
      PutAllWrites(blocks, toput);
      err := StorePutMany(toput, o);
      if err.Some? {
        return;
      }
      Announce(toput, o);
      Assoc(old(trace), [PutManyCall(toput)], Announcements(cfg, toput));
    }

    /** The best-effort announcements after a successful write: failures are
        dropped. */
    method Announce(written: seq<Block>, o: Oracle)
      modifies this`trace
      ensures trace == old(trace) + Announcements(cfg, written)
    {
      if cfg.exchange.Some? {
        var _ := NotifyNewBlocks(written, o);
      }
      ghost var notified := trace;
      if cfg.provider.Some? {
        ProvideEach(written, o);
      }
      assert trace == notified + (if cfg.provider.Some? then ProvideCalls(written) else []);
    }

    method DeleteBlock(c: Cid, o: Oracle) returns (err: Option<Error>)
      requires Valid()
      modifies this`blocks, this`trace
      ensures var e := DeleteBlockSpec(old(blocks), c, o);
              err == e.result && blocks == e.store && trace == old(trace) + e.events
      ensures Valid()
    {
      err := StoreDelete(c, o);
    }

    /** Close closes the exchange, when there is one, and returns its error. */
    method Close(o: Oracle) returns (err: Option<Error>)
      modifies this`trace
      ensures cfg.exchange.None? ==> err.None? && trace == old(trace)
      ensures cfg.exchange.Some? ==> err == o.closeErr && trace == old(trace) + [CloseCall]
    {
      if cfg.exchange.None? {
        return None;
      }
      trace := trace + [CloseCall];
      err := o.closeErr;
    }

    method GetBlock(c: Cid, o: Oracle) returns (r: Result<Block>)
      requires Valid()
      modifies this
      ensures var e := GetBlockSpec(cfg, old(blocks), c, ExchangeFetcherOf(cfg.exchange), o);
              r == e.result && blocks == e.store && trace == old(trace) + e.events
      ensures Valid()
    {
      r := GetBlockWith(this, c, ServiceExchange, o);
    }

    method GetBlocks(ks: seq<Cid>, o: Oracle, cancel: Option<nat>) returns (out: seq<Block>)
      requires Valid()
      modifies this
      ensures var t := GetBlocksSpec(cfg, old(blocks), ks, ExchangeFetcherOf(cfg.exchange), o, cancel);
              out == t.out && blocks == t.store && trace == old(trace) + t.events
      ensures Valid()
    {
      out := GetBlocksWith(this, ks, ServiceExchange, o, cancel);
    }
  }

  /** The service's own fetch factory hands out its exchange, if any. */
  function ExchangeFetcherOf(exchange: Option<Exchange>): (f: Option<Fetcher>)
    ensures f.None? <==> exchange.None?
    ensures f.Some? ==> f.value == ExchangeFetcher(exchange.value)
  {
    if exchange.None? then None else Some(ExchangeFetcher(exchange.value))
  }

  /** What a session creates on its first use: nothing without an exchange,
      a session of the exchange when it can open one, the exchange itself
      otherwise. */
  function SessionFetcherFor(exchange: Option<Exchange>, ctx: Option<Context>): (f: Option<Fetcher>)
    ensures f.None? <==> exchange.None?
    ensures f.Some? ==> f.value.ex == exchange.value
    ensures f.Some? ==> (f.value.SessionFetcher? <==> exchange.value.sessions)
    ensures f.Some? && f.value.SessionFetcher? ==> f.value.ctx == ctx
  {
    if exchange.None? then None
    else if exchange.value.sessions then Some(SessionFetcher(exchange.value, ctx))
    else Some(ExchangeFetcher(exchange.value))
  }

  /** A session over a block service: it creates its fetcher once, lazily,
      with the context it was created with, and then forgets that context.
      `origin` remembers that context for the proofs. */
  class Session {
    const bs: BlockService
    ghost const origin: Context
    var initialised: bool
    var ses: Option<Fetcher>
    var sesctx: Option<Context>

    /** Before the first use the session holds its context and no fetcher;
        afterwards it holds the fetcher that context determines, and no
        context. */
    ghost predicate Valid()
      reads this
    {
      && (!initialised ==> ses.None? && sesctx == Some(origin))
      && (initialised ==> sesctx.None? && ses == SessionFetcherFor(bs.cfg.exchange, Some(origin)))
    }

    /** The fetcher this session hands out, now and on every later use. */
    function Grabbed(): (f: Option<Fetcher>)
      reads this
      ensures Valid() ==> f == SessionFetcherFor(bs.cfg.exchange, Some(origin))
    {
      if initialised then ses else SessionFetcherFor(bs.cfg.exchange, sesctx)
    }

    /** NewSession: nothing is created yet. */
    constructor (ctx: Context, service: BlockService)
      ensures bs == service && origin == ctx && !initialised && ses.None? && sesctx == Some(ctx)
      ensures Valid() && Grabbed() == SessionFetcherFor(service.cfg.exchange, Some(ctx))
    {
      bs := service;
      origin := ctx;
      initialised := false;
      ses := None;
      sesctx := Some(ctx);
    }

    /** grabSession: the first call creates the fetcher and drops the
        context; every call returns the one fetcher. */
    method GrabSession() returns (f: Option<Fetcher>)
      requires Valid()
      modifies this
      ensures f == old(Grabbed()) == SessionFetcherFor(bs.cfg.exchange, Some(origin))
      ensures initialised && ses == f && sesctx.None?
      ensures old(initialised) ==> unchanged(this)
      ensures Valid() && Grabbed() == old(Grabbed())
    {
      if !initialised {
        initialised := true;
        var ex := bs.cfg.exchange;
        if ex.Some? {
          ses := Some(ExchangeFetcher(ex.value));
          if ex.value.sessions {
            ses := Some(SessionFetcher(ex.value, sesctx));
          }
        }
        sesctx := None;
      }
      f := ses;
    }

    method GetBlock(c: Cid, o: Oracle) returns (r: Result<Block>)
      requires Valid() && bs.Valid()
      modifies this, bs
      ensures var e := GetBlockSpec(bs.cfg, old(bs.blocks), c, old(Grabbed()), o);
              r == e.result && bs.blocks == e.store && bs.trace == old(bs.trace) + e.events
      ensures Valid() && bs.Valid() && Grabbed() == old(Grabbed())
      // the session is set up, and its context dropped, exactly when the read reached the fetch factory
      ensures var e := GetBlockSpec(bs.cfg, old(bs.blocks), c, old(Grabbed()), o);
              if FactoryCall in e.events then initialised && sesctx.None? else unchanged(this)
    {
      r := GetBlockWith(bs, c, SessionOf(this), o);
    }

    method GetBlocks(ks: seq<Cid>, o: Oracle, cancel: Option<nat>) returns (out: seq<Block>)
      requires Valid() && bs.Valid()
      modifies this, bs
      ensures var t := GetBlocksSpec(bs.cfg, old(bs.blocks), ks, old(Grabbed()), o, cancel);
              out == t.out && bs.blocks == t.store && bs.trace == old(bs.trace) + t.events
      ensures Valid() && bs.Valid() && Grabbed() == old(Grabbed())
      ensures var t := GetBlocksSpec(bs.cfg, old(bs.blocks), ks, old(Grabbed()), o, cancel);
              if FactoryCall in t.events then initialised && sesctx.None? else unchanged(this)
    {
      out := GetBlocksWith(bs, ks, SessionOf(this), o, cancel);
    }
  }

  /** The fetch factory a read is given: the service's exchange, or a session. */
  datatype FetchSource = ServiceExchange | SessionOf(session: Session) {
    function Objects(): set<object> {
      if SessionOf? then {session} else {}
    }

    ghost predicate Fits(bs: BlockService)
      reads Objects()
    {
      SessionOf? ==> session.bs == bs && session.Valid()
    }
  }

  /** What the fetch factory answers when it is asked. */
  function FactoryAnswer(bs: BlockService, src: FetchSource): Option<Fetcher>
    reads src.Objects()
  {
    match src
    case ServiceExchange => ExchangeFetcherOf(bs.cfg.exchange)
    case SessionOf(s) => s.Grabbed()
  }

  method AskFactory(bs: BlockService, src: FetchSource) returns (f: Option<Fetcher>)
    requires src.Fits(bs)
    modifies bs`trace, src.Objects()
    ensures f == old(FactoryAnswer(bs, src))
    ensures bs.trace == old(bs.trace) + [FactoryCall]
    ensures src.Fits(bs) && FactoryAnswer(bs, src) == old(FactoryAnswer(bs, src))
    ensures src.SessionOf? ==> src.session.initialised && src.session.sesctx.None?
  {
    bs.trace := bs.trace + [FactoryCall];
    match src
    case ServiceExchange =>
      f := ExchangeFetcherOf(bs.cfg.exchange);
    case SessionOf(s) =>
      f := s.GrabSession();
  }

  /** getBlock, with the fetch factory it is given. */
  method GetBlockWith(bs: BlockService, c: Cid, src: FetchSource, o: Oracle) returns (r: Result<Block>)
    requires bs.Valid() && src.Fits(bs)
    modifies bs, src.Objects()
    ensures var e := GetBlockSpec(bs.cfg, old(bs.blocks), c, old(FactoryAnswer(bs, src)), o);
            r == e.result && bs.blocks == e.store && bs.trace == old(bs.trace) + e.events
    ensures bs.Valid() && src.Fits(bs) && FactoryAnswer(bs, src) == old(FactoryAnswer(bs, src))
    ensures var e := GetBlockSpec(bs.cfg, old(bs.blocks), c, old(FactoryAnswer(bs, src)), o);
            src.SessionOf? ==>
              if FactoryCall in e.events then src.session.initialised && src.session.sesctx.None?
              else unchanged(src.session)
  {
    GetBlockAsksFactory(bs.cfg, bs.blocks, c, FactoryAnswer(bs, src), o);
    var invalid := ValidateCid(bs.cfg.allowlist, c);
    if invalid.Some? {
      return Err(invalid.value);
    }
    ghost var before := bs.trace;
    var got := bs.StoreGet(c, o);
    if got.Ok? || !IsNotFound(got.error) {
      return got;
    }
    var fetch := AskFactory(bs, src);
    if fetch.None? {
      return got;
    }
    ghost var asked := bs.trace;
    assert asked == before + [GetCall(c), FactoryCall];
    r := FetchAndCacheWith(bs, fetch.value, c, o);
    Assoc(before, [GetCall(c), FactoryCall], bs.trace[|asked|..]);
  }

  /** The network half of getBlock. */
  method FetchAndCacheWith(bs: BlockService, f: Fetcher, c: Cid, o: Oracle) returns (r: Result<Block>)
    requires bs.Valid()
    modifies bs`blocks, bs`trace
    ensures var e := FetchAndCache(bs.cfg, old(bs.blocks), c, f, o);
            r == e.result && bs.blocks == e.store && bs.trace == old(bs.trace) + e.events
    ensures bs.Valid()
  {
    ghost var before := bs.trace;
    var blk := bs.Fetch(f, c, o);
    if blk.Err? {
      return blk;
    }
    ghost var fetched := bs.trace;
    var err := CacheFetchedWith(bs, blk.value, o);
    Assoc(before, [FetchCall(f, c)], bs.trace[|fetched|..]);
    r := if err.Some? then Err(err.value) else blk;
  }

  /** The writing and announcing half of getBlock's network path. */
  method CacheFetchedWith(bs: BlockService, blk: Block, o: Oracle) returns (err: Option<Error>)
    requires bs.Valid()
    modifies bs`blocks, bs`trace
    ensures var e := CacheFetched(bs.cfg, old(bs.blocks), blk, o);
            err == e.result && bs.blocks == e.store && bs.trace == old(bs.trace) + e.events
    ensures bs.Valid()
  {
    err := bs.StorePut(blk, o);
    if err.Some? {
      return;
    }
    if bs.cfg.exchange.Some? {
      err := bs.NotifyNewBlocks([blk], o);
      if err.Some? {
        return;
      }
    }
    if bs.cfg.provider.Some? {
      err := bs.Provide(blk.cid, o);
    }
  }

  /** getBlocks, with the fetch factory it is given, run to completion: `out`
      is what the consumer receives from the channel, in order. The context is
      cancelled once `cancel` blocks have been received. */
  method GetBlocksWith(bs: BlockService, ks: seq<Cid>, src: FetchSource, o: Oracle, cancel: Option<nat>)
    returns (out: seq<Block>)
    requires bs.Valid() && src.Fits(bs)
    modifies bs, src.Objects()
    ensures var t := GetBlocksSpec(bs.cfg, old(bs.blocks), ks, old(FactoryAnswer(bs, src)), o, cancel);
            out == t.out && bs.blocks == t.store && bs.trace == old(bs.trace) + t.events
    ensures bs.Valid() && src.Fits(bs) && FactoryAnswer(bs, src) == old(FactoryAnswer(bs, src))
    ensures var t := GetBlocksSpec(bs.cfg, old(bs.blocks), ks, old(FactoryAnswer(bs, src)), o, cancel);
            src.SessionOf? ==>
              if FactoryCall in t.events then src.session.initialised && src.session.sesctx.None?
              else unchanged(src.session)
  {
    GetBlocksAsksFactory(bs.cfg, bs.blocks, ks, FactoryAnswer(bs, src), o, cancel);
    var valid := DropUnsafeCids(bs.cfg.allowlist, ks);
    ghost var local := LocalScan(o, cancel, Task(bs.blocks, [], [], [], true), valid);
    LocalScanShape(o, cancel, Task(bs.blocks, [], [], [], true), valid);
    var live, misses;
    out, misses, live := LocalPhase(bs, valid, o, cancel);
    if !live {
      return;
    }
    ghost var evs := local.events + [FactoryCall];
    var fetch := AskFactory(bs, src);
    Assoc(old(bs.trace), local.events, [FactoryCall]);
    if |misses| == 0 || fetch.None? {
      return;
    }
    var rblocks := bs.FetchMany(fetch.value, misses, o);
    Assoc(old(bs.trace), evs, [FetchManyCall(fetch.value, misses)]);
    evs := evs + [FetchManyCall(fetch.value, misses)];
    if rblocks.Err? {
      return;
    }
    out := NetPhase(bs, rblocks.value, out, misses, o, cancel, old(bs.trace), evs);
  }

  /** The local phase of getBlocks: look each accepted identifier up in the
      store, in order; a miss is remembered, a hit is sent to the consumer
      unless the context is done, which ends the producer (`live` false). */
  method LocalPhase(bs: BlockService, valid: seq<Cid>, o: Oracle, cancel: Option<nat>)
    returns (out: seq<Block>, misses: seq<Cid>, live: bool)
    modifies bs`trace
    ensures var t := LocalScan(o, cancel, Task(bs.blocks, [], [], [], true), valid);
            out == t.out && misses == t.misses && live == t.live && bs.trace == old(bs.trace) + t.events
  {
    out, misses, live := [], [], true;
    ghost var evs: seq<Event> := [];
    ghost var local := LocalScan(o, cancel, Task(bs.blocks, [], [], [], true), valid);
    assert valid[0..] == valid;
    var i := 0;
    while i < |valid|
      invariant 0 <= i <= |valid|
      invariant bs.trace == old(bs.trace) + evs
      invariant local == LocalScan(o, cancel, Task(bs.blocks, out, misses, evs, true), valid[i..])
    {
      ghost var cur := Task(bs.blocks, out, misses, evs, true);
      assert valid[i..][0] == valid[i] && valid[i..][1..] == valid[i + 1..];
      assert local == LocalScan(o, cancel, LocalStep(o, cancel, cur, valid[i]), valid[i + 1..]);
      var hit := bs.StoreGet(valid[i], o);
      evs := evs + [GetCall(valid[i])];
      if hit.Err? {
        misses := misses + [valid[i]];
      } else {
        if Cancelled(cancel, |out|) {
          return out, misses, false;
        }
        out := out + [hit.value];
      }
      i := i + 1;
    }
  }

  /** The network phase of getBlocks: each block received is written to the
      store, announced to the exchange and the provider, then sent to the
      consumer. A failure, or a context done at the receive, ends the
      producer; so does the end of the arrivals. */
  method NetPhase(bs: BlockService, arrivals: seq<Block>, out0: seq<Block>, misses: seq<Cid>, o: Oracle,
                  cancel: Option<nat>, ghost before: seq<Event>, ghost evs0: seq<Event>)
    returns (out: seq<Block>)
    requires bs.Valid() && bs.trace == before + evs0
    modifies bs`blocks, bs`trace
    ensures var t := NetScan(bs.cfg, o, cancel, Task(old(bs.blocks), out0, misses, evs0, true), arrivals);
            out == t.out && bs.blocks == t.store && bs.trace == before + t.events
    ensures bs.Valid()
  {
    out := out0;
    ghost var evs := evs0;
    ghost var spec := NetScan(bs.cfg, o, cancel, Task(bs.blocks, out0, misses, evs0, true), arrivals);
    assert arrivals[0..] == arrivals;
    var j := 0;
    while j < |arrivals|
      invariant 0 <= j <= |arrivals|
      invariant bs.Valid() && bs.trace == before + evs
      invariant spec == NetScan(bs.cfg, o, cancel, Task(bs.blocks, out, misses, evs, true), arrivals[j..])
    {
      ghost var cur := Task(bs.blocks, out, misses, evs, true);
      var b := arrivals[j];
      assert arrivals[j..][0] == b && arrivals[j..][1..] == arrivals[j + 1..];
      assert spec == NetScan(bs.cfg, o, cancel, NetStep(bs.cfg, o, cancel, cur, b), arrivals[j + 1..]);
      if Cancelled(cancel, |out|) {
        assert spec == cur.(live := false);
        return;
      }
      NetStepFields(bs.cfg, o, cancel, cur, b);
      var ok := CacheAndAnnounce(bs, b, o);
      Assoc(before, evs, StepCalls(bs.cfg, o, b));
      evs := evs + StepCalls(bs.cfg, o, b);
      if !ok {
        assert spec == Task(bs.blocks, out, misses, evs, false);
        return;
      }
      out := out + [b];
      j := j + 1;
    }
  }

  /** One received block of the network phase: written to the store, then
      announced to the exchange and the provider; `ok` is false at the first
      failure, which ends the producer. */
  method CacheAndAnnounce(bs: BlockService, b: Block, o: Oracle) returns (ok: bool)
    requires bs.Valid()
    modifies bs`blocks, bs`trace
    ensures ok == Passes(bs.cfg, o, b)
    ensures bs.blocks == if PutAnswer(o, b).None? then old(bs.blocks)[b.cid := b] else old(bs.blocks)
    ensures bs.trace == old(bs.trace) + StepCalls(bs.cfg, o, b)
    ensures bs.Valid()
  {
    var err := bs.StorePut(b, o);
    if err.Some? {
      return false;
    }
    if bs.cfg.exchange.Some? {
      err := bs.NotifyNewBlocks([b], o);
      if err.Some? {
        return false;
      }
    }
    if bs.cfg.provider.Some? {
      err := bs.Provide(b.cid, o);
      if err.Some? {
        return false;
      }
    }
    ok := true;
  }
}
