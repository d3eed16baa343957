/** Values shared by the block service model: content identifiers, blocks,
    errors, the collaborators' handles, the answers the collaborators give
    during one call, and the events a call leaves on the trace. */
module Types {

  datatype Option<+T> = None | Some(value: T)

  datatype Result<+T> = Ok(value: T) | Err(error: Error)

  /** A content identifier: the multihash function code and the digest. */
  datatype Cid = Cid(hashCode: nat, digest: seq<bv8>)

  /** An immutable block: its identifier and its raw payload. */
  datatype Block = Block(cid: Cid, data: seq<bv8>)

  datatype Error =
    | UnsafeHash(cid: Cid)   // the allowlist rejected the identifier's hash function
    | NotFound(cid: Cid)     // the blockstore does not hold the block
    | Failure(code: nat)     // any other collaborator error, passed on as it is

  predicate IsNotFound(e: Error) { e.NotFound? }

  /** The hash-safety policy: the multihash codes it accepts. */
  datatype Allowlist = Allowlist(allowed: set<nat>)

  predicate Allowed(a: Allowlist, c: Cid) { c.hashCode in a.allowed }

  /** Hash-security check applied before any store or network access. */
  function ValidateCid(a: Allowlist, c: Cid): (r: Option<Error>)
    ensures r.None? <==> Allowed(a, c)
    ensures r.Some? ==> r.value == UnsafeHash(c)
  {
    if Allowed(a, c) then None else Some(UnsafeHash(c))
  }

  /** The network exchange; `sessions` says whether it can open sessions. */
  datatype Exchange = Exchange(id: nat, sessions: bool)

  /** The content advertiser. */
  datatype Provider = Provider(id: nat)

  /** A caller context, captured by a session until it is initialised. */
  datatype Context = Context(id: nat)

  /** What a fetch factory hands out: the exchange itself or one of its sessions. */
  datatype Fetcher =
    | ExchangeFetcher(ex: Exchange)
    | SessionFetcher(ex: Exchange, ctx: Option<Context>)

  /** The local blockstore's contents. */
  type Store = map<Cid, Block>

  /** Every stored block sits under its own identifier. */
  predicate WellKeyed(s: Store) {
    forall c :: c in s ==> s[c].cid == c
  }

  function Cids(bs: seq<Block>): (r: seq<Cid>)
    ensures |r| == |bs|
    ensures forall i :: 0 <= i < |bs| ==> r[i] == bs[i].cid
  {
    seq(|bs|, i requires 0 <= i < |bs| => bs[i].cid)
  }

  /** How the collaborators answer during one call. A failing answer is
      keyed by the identifier the call is about; a batched notification fails
      with the failure of the first block it lists that has one. */
  datatype Oracle = Oracle(
    hasErr: map<Cid, Error>,
    getErr: map<Cid, Error>,
    putErr: map<Cid, Error>,
    putManyErr: Option<Error>,
    deleteErr: map<Cid, Error>,
    notifyErr: map<Cid, Error>,
    provideErr: map<Cid, Error>,
    closeErr: Option<Error>,
    fetchOne: Result<Block>,          // what a single-block fetch returns
    fetchMany: Result<seq<Block>>)    // dispatch outcome and arrival order of a batch fetch

  function HasAnswer(o: Oracle, store: Store, c: Cid): (r: Result<bool>)
    ensures r.Ok? ==> (r.value <==> c in store)
  {
    if c in o.hasErr then Err(o.hasErr[c]) else Ok(c in store)
  }

  function GetAnswer(o: Oracle, store: Store, c: Cid): (r: Result<Block>)
    ensures r.Ok? ==> c in store && r.value == store[c]
    ensures c !in store && c !in o.getErr ==> r == Err(NotFound(c))
  {
    if c in o.getErr then Err(o.getErr[c])
    else if c in store then Ok(store[c])
    else Err(NotFound(c))
  }

  function PutAnswer(o: Oracle, b: Block): Option<Error> {
    if b.cid in o.putErr then Some(o.putErr[b.cid]) else None
  }

  function DeleteAnswer(o: Oracle, c: Cid): Option<Error> {
    if c in o.deleteErr then Some(o.deleteErr[c]) else None
  }

  function ProvideAnswer(o: Oracle, c: Cid): Option<Error> {
    if c in o.provideErr then Some(o.provideErr[c]) else None
  }

  function NotifyAnswer(o: Oracle, bs: seq<Block>): (r: Option<Error>)
    ensures r.None? <==> forall i :: 0 <= i < |bs| ==> bs[i].cid !in o.notifyErr
  {
    if bs == [] then None
    else if bs[0].cid in o.notifyErr then Some(o.notifyErr[bs[0].cid])
    else NotifyAnswer(o, bs[1..])
  }

  /** The store after writing `bs` one after the other. */
  function PutAll(store: Store, bs: seq<Block>): Store
    decreases |bs|
  {
    if bs == [] then store else PutAll(store[bs[0].cid := bs[0]], bs[1..])
  }

  /** Writing `bs` adds exactly their identifiers, leaves every other entry
      alone, and keeps a well-keyed store well keyed. */
  lemma {:induction false} PutAllWrites(store: Store, bs: seq<Block>)
    ensures var r := PutAll(store, bs);
            && (forall i :: 0 <= i < |bs| ==> bs[i].cid in r)
            && (forall c :: c in r <==> c in store || c in Cids(bs))
            && (forall c :: c in store && c !in Cids(bs) ==> r[c] == store[c])
            && (WellKeyed(store) ==> WellKeyed(r))
    decreases |bs|
  {
    if bs != [] {
      PutAllWrites(store[bs[0].cid := bs[0]], bs[1..]);
      CidsCons(bs);
    }
  }

  /** Writing `bs` stores each block under its identifier unless a later
      block of `bs` has the same identifier. */
  lemma {:induction false} PutAllStores(store: Store, bs: seq<Block>, i: nat)
    requires i < |bs| && forall j :: i < j < |bs| ==> bs[j].cid != bs[i].cid
    ensures bs[i].cid in PutAll(store, bs) && PutAll(store, bs)[bs[i].cid] == bs[i]
    decreases |bs|
  {
    var next := store[bs[0].cid := bs[0]];
    if i == 0 {
      PutAllWrites(next, bs[1..]);
      assert bs[0].cid !in Cids(bs[1..]);
    } else {
      PutAllStores(next, bs[1..], i - 1);
    }
  }

  lemma CidsCons(bs: seq<Block>)
    requires bs != []
    ensures Cids(bs) == [bs[0].cid] + Cids(bs[1..])
  {
  }

  /** Appending in two steps appends the concatenation. */
  lemma Assoc<T>(a: seq<T>, b: seq<T>, c: seq<T>)
    ensures a + b + c == a + (b + c)
  {
  }

  /** One collaborator call, as recorded on the trace. */
  datatype Event =
    | HasCall(cid: Cid)
    | GetCall(cid: Cid)
    | PutCall(block: Block)
    | PutManyCall(blocks: seq<Block>)
    | DeleteCall(cid: Cid)
    | NotifyCall(blocks: seq<Block>)
    | ProvideCall(cid: Cid)
    | FactoryCall                                  // the fetch factory was asked for a fetcher
    | FetchCall(fetcher: Fetcher, cid: Cid)
    | FetchManyCall(fetcher: Fetcher, cids: seq<Cid>)
    | CloseCall

  predicate IsStoreCall(e: Event) {
    e.HasCall? || e.GetCall? || e.PutCall? || e.PutManyCall? || e.DeleteCall?
  }

  predicate IsWrite(e: Event) { e.PutCall? || e.PutManyCall? }

  /** No two events of the trace are writes to the store. */
  predicate AtMostOneWrite(evs: seq<Event>) {
    forall i, j :: 0 <= i < j < |evs| && IsWrite(evs[i]) ==> !IsWrite(evs[j])
  }

  predicate IsAnnouncement(e: Event) { e.NotifyCall? || e.ProvideCall? }

  predicate IsNetworkCall(e: Event) {
    e.FactoryCall? || e.FetchCall? || e.FetchManyCall?
  }

  /** The outcome of one synchronous operation: its result, the store after
      it, and the collaborator calls it made, in order. */
  datatype Effect<+T> = Effect(result: T, store: Store, events: seq<Event>)
}
