/** The service configuration and the options `New` folds over it. */
module Options {
  import opened Types

  /** The fields of the service that never change after construction.
      With `checkFirst` set, a write first asks the store whether the block
      is already there, so that a present block is not announced again. */
  datatype Config = Config(
    allowlist: Allowlist,
    exchange: Option<Exchange>,   // None: local (offline) mode
    provider: Option<Provider>,   // None: nothing is advertised
    checkFirst: bool)

  datatype ServiceOption =
    | WriteThrough                            // skip the existence check on writes
    | WithAllowlist(allowlist: Allowlist)
    | WithProvider(provider: Option<Provider>)

  /** The configuration before any option runs. */
  function Defaults(exchange: Option<Exchange>, defaultAllowlist: Allowlist): (cfg: Config)
    ensures cfg.checkFirst && cfg.provider.None?
    ensures cfg.exchange == exchange && cfg.allowlist == defaultAllowlist
  {
    Config(defaultAllowlist, exchange, None, true)
  }

  /** One option, changing the one field it is about. */
  function Apply(cfg: Config, opt: ServiceOption): (r: Config)
    ensures r.exchange == cfg.exchange
    ensures r.checkFirst == (cfg.checkFirst && !opt.WriteThrough?)
    ensures r.allowlist == if opt.WithAllowlist? then opt.allowlist else cfg.allowlist
    ensures r.provider == if opt.WithProvider? then opt.provider else cfg.provider
  {
    match opt
    case WriteThrough => cfg.(checkFirst := false)
    case WithAllowlist(a) => cfg.(allowlist := a)
    case WithProvider(p) => cfg.(provider := p)
  }

  /** The allowlist of the last `WithAllowlist` in `opts`, if there is one. */
  function LastAllowlist(opts: seq<ServiceOption>, otherwise: Allowlist): (a: Allowlist)
    ensures (forall i :: 0 <= i < |opts| ==> !opts[i].WithAllowlist?) ==> a == otherwise
    ensures a == otherwise || exists i :: 0 <= i < |opts| && opts[i] == WithAllowlist(a)
    ensures forall i :: 0 <= i < |opts| && opts[i].WithAllowlist? && (forall j :: i < j < |opts| ==> !opts[j].WithAllowlist?) ==>
              a == opts[i].allowlist
  {
    if opts == [] then otherwise
    else if opts[|opts| - 1].WithAllowlist? then opts[|opts| - 1].allowlist
    else LastAllowlist(opts[..|opts| - 1], otherwise)
  }

  /** The provider of the last `WithProvider` in `opts`, if there is one. */
  function LastProvider(opts: seq<ServiceOption>, otherwise: Option<Provider>): (p: Option<Provider>)
    ensures (forall i :: 0 <= i < |opts| ==> !opts[i].WithProvider?) ==> p == otherwise
    ensures p == otherwise || exists i :: 0 <= i < |opts| && opts[i] == WithProvider(p)
    ensures forall i :: 0 <= i < |opts| && opts[i].WithProvider? && (forall j :: i < j < |opts| ==> !opts[j].WithProvider?) ==>
              p == opts[i].provider
  {
    if opts == [] then otherwise
    else if opts[|opts| - 1].WithProvider? then opts[|opts| - 1].provider
    else LastProvider(opts[..|opts| - 1], otherwise)
  }

  /** The options applied in order, each one to the result of the ones before:
      a later option of a kind overrides an earlier one, `WriteThrough`
      anywhere turns the existence check off, and nothing touches the exchange. */
  function ApplyAll(cfg: Config, opts: seq<ServiceOption>): (r: Config)
    ensures r.exchange == cfg.exchange
    ensures r.checkFirst <==> cfg.checkFirst && WriteThrough !in opts
    ensures r.allowlist == LastAllowlist(opts, cfg.allowlist)
    ensures r.provider == LastProvider(opts, cfg.provider)
    decreases |opts|
  {
    if opts == [] then cfg
    else
      var init := opts[..|opts| - 1];
      assert opts == init + [opts[|opts| - 1]];
      Apply(ApplyAll(cfg, init), opts[|opts| - 1])
  }

  /** The configuration `New` builds from the exchange and the options. */
  function NewConfig(exchange: Option<Exchange>, defaultAllowlist: Allowlist, opts: seq<ServiceOption>): (cfg: Config)
    ensures cfg.exchange == exchange
    ensures cfg.checkFirst <==> WriteThrough !in opts
    ensures cfg.allowlist == LastAllowlist(opts, defaultAllowlist)
    ensures cfg.provider == LastProvider(opts, None)
  {
    ApplyAll(Defaults(exchange, defaultAllowlist), opts)
  }
}
