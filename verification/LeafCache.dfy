/**
 The leaf-certificate cache of the egress sidecar
 (native/condukt_egress/src/proxy/tls.rs, `server_config_for`): look up under the lock,
 mint outside it, insert unless somebody else was first.
 */
module LeafCache {
  import opened Common

  /** A server configuration: the host it was minted for, and which minting made it. */
  datatype Config = Config(host: string, serial: nat)

  /** The cache in place, behind its mutex. */
  class CaContext {
    var leafCache: map<string, Config>

    constructor ()
      ensures leafCache == map[]
    {
      leafCache := map[];
    }

    /** First critical section. */
    method Lookup(host: string) returns (r: Option<Config>)
      ensures r == if host in leafCache then Some(leafCache[host]) else None
    {
      if host in leafCache {
        return Some(leafCache[host]);
      }
      return None;
    }

    /** Second critical section, `entry().or_insert`: the first config stays. */
    method InsertIfAbsent(host: string, minted: Config) returns (cfg: Config)
      modifies this
      ensures leafCache == Inserted(old(leafCache), host, minted)
      ensures cfg == leafCache[host]
    {
      if host !in leafCache {
        leafCache := leafCache[host := minted];
      }
      cfg := leafCache[host];
    }
  }

  function Inserted(cache: map<string, Config>, host: string, minted: Config): (r: map<string, Config>)
    ensures host in r
  {
    if host in cache then cache else cache[host := minted]
  }

  // ------------------------------------------------------ every interleaving

  datatype Caller =
    | Arriving(host: string)
    | Minting(host: string)
    | Inserting(host: string, minted: Config)
    | Served(host: string, config: Config)
    | Failed(host: string)

  datatype State = State(cache: map<string, Config>, callers: seq<Caller>, mintings: nat)

  datatype Action = Arrive(host: string) | Look(c: nat) | Mint(c: nat, ok: bool) | Insert(c: nat)

  predicate Possible(s: State, a: Action) {
    match a
    case Arrive(_) => true
    case Look(c) => c < |s.callers| && s.callers[c].Arriving?
    case Mint(c, _) => c < |s.callers| && s.callers[c].Minting?
    case Insert(c) => c < |s.callers| && s.callers[c].Inserting?
  }

  function Step(s: State, a: Action): State
    requires Possible(s, a)
  {
    match a
    case Arrive(host) => s.(callers := s.callers + [Arriving(host)])
    case Look(c) =>
      var host := s.callers[c].host;
      s.(callers := s.callers[c := if host in s.cache then Served(host, s.cache[host]) else Minting(host)])
    case Mint(c, ok) =>
      var host := s.callers[c].host;
      if ok then s.(callers := s.callers[c := Inserting(host, Config(host, s.mintings))], mintings := s.mintings + 1)
      else s.(callers := s.callers[c := Failed(host)])
    case Insert(c) =>
      var host := s.callers[c].host;
      var cache := Inserted(s.cache, host, s.callers[c].minted);
      s.(cache := cache, callers := s.callers[c := Served(host, cache[host])])
  }

  ghost predicate IsRun(run: seq<State>, actions: seq<Action>) {
    && |run| == |actions| + 1 && run[0] == State(map[], [], 0)
    && forall i {:trigger actions[i]} :: 0 <= i < |actions| ==>
         Possible(run[i], actions[i]) && run[i + 1] == Step(run[i], actions[i])
  }

  /** Cached and freshly minted configs are for their own host, and whoever has been served
      holds the cached one. */
  predicate Coherent(s: State) {
    && (forall host :: host in s.cache ==> s.cache[host].host == host)
    && (forall c :: 0 <= c < |s.callers| && s.callers[c].Inserting? ==> s.callers[c].minted.host == s.callers[c].host)
    && (forall c :: 0 <= c < |s.callers| && s.callers[c].Served? ==>
          s.callers[c].host in s.cache && s.cache[s.callers[c].host] == s.callers[c].config)
  }

  lemma StepKeepsCoherent(s: State, a: Action)
    requires Coherent(s) && Possible(s, a)
    ensures Coherent(Step(s, a))
    ensures forall host :: host in s.cache ==> host in Step(s, a).cache && Step(s, a).cache[host] == s.cache[host]
  {
  }

  lemma {:induction false} RunKeepsCoherent(run: seq<State>, actions: seq<Action>, i: nat)
    requires IsRun(run, actions) && i < |run|
    ensures Coherent(run[i])
  {
    if i == 0 {
    } else {
      RunKeepsCoherent(run, actions, i - 1);
      StepKeepsCoherent(run[i - 1], actions[i - 1]);
    }
  }

  /** In every interleaving, however many callers mint at once, all successful calls for a
      host return the same config, and it was minted for that host. */
  lemma OneConfigPerHost(run: seq<State>, actions: seq<Action>, i: nat, c: nat, d: nat)
    requires IsRun(run, actions) && i < |run| && c < |run[i].callers| && d < |run[i].callers|
    requires run[i].callers[c].Served? && run[i].callers[d].Served? && run[i].callers[c].host == run[i].callers[d].host
    ensures run[i].callers[c].config == run[i].callers[d].config
    ensures run[i].callers[c].config.host == run[i].callers[c].host
  {
    RunKeepsCoherent(run, actions, i);
  }

  /** No entry is ever replaced or dropped. */
  lemma {:induction false} EntriesAreForever(run: seq<State>, actions: seq<Action>, i: nat, j: nat, host: string)
    requires IsRun(run, actions) && i <= j < |run| && host in run[i].cache
    ensures host in run[j].cache && run[j].cache[host] == run[i].cache[host]
  {
    if i == j {
    } else {
      EntriesAreForever(run, actions, i, j - 1, host);
      RunKeepsCoherent(run, actions, j - 1);
      StepKeepsCoherent(run[j - 1], actions[j - 1]);
    }
  }

  /** Once a host has a config, whoever looks it up is served that config and mints nothing. */
  lemma CachedIsServed(run: seq<State>, actions: seq<Action>, i: nat, c: nat)
    requires IsRun(run, actions) && i < |actions| && actions[i] == Look(c) && run[i].callers[c].host in run[i].cache
    ensures c < |run[i + 1].callers| && run[i + 1].mintings == run[i].mintings
    ensures run[i + 1].callers[c] == Served(run[i].callers[c].host, run[i].cache[run[i].callers[c].host])
  {
  }

  /** A caller fails only if its own minting did, and then leaves the cache as it is. */
  lemma FailsOnlyWhenMintingDoes(run: seq<State>, actions: seq<Action>, i: nat, c: nat)
    requires IsRun(run, actions) && i < |actions| && c < |run[i].callers| && c < |run[i + 1].callers|
    requires !run[i].callers[c].Failed? && run[i + 1].callers[c].Failed?
    ensures actions[i] == Mint(c, false) && run[i + 1].cache == run[i].cache
  {
  }

  /** The first to insert is served its own config. */
  lemma FirstConfigIsKept(run: seq<State>, actions: seq<Action>, i: nat, c: nat)
    requires IsRun(run, actions) && i < |actions| && actions[i] == Insert(c) && run[i].callers[c].host !in run[i].cache
    ensures c < |run[i + 1].callers|
    ensures run[i + 1].callers[c] == Served(run[i].callers[c].host, run[i].callers[c].minted)
  {
  }
}
