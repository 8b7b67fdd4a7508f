/** The v1 simulator: it serves a session's current chain from a bounded cache
    of walks, and resolves the data a historical walk still lacks. */
module WalkCache {
  import opened Results
  import opened SessionModel

  type Chain(==, !new)

  /** The database and the walk kernels, as functions of what they are given:
      the seed decides which symbol and dates are picked. */
  datatype Market = Market(
    load: (Option<string>, TimeFrame, nat, nat) -> Result<(string, seq<Price>), string>,
    generate: Parameters -> Result<seq<Chain>, string>)

  /** A load returns exactly the prices asked for. */
  ghost predicate LoadsExactly(m: Market) {
    forall symbol, timeframe, steps, seed ::
      m.load(symbol, timeframe, steps, seed).Ok? ==> |m.load(symbol, timeframe, steps, seed).value.1| == steps
  }

  predicate Lacking(p: Parameters) {
    p.source.Historical? && (p.source.prices == [] || |p.source.prices| < p.steps)
  }

  /** The source that is walked, and whether it had to be fetched. */
  function Resolve(m: Market, p: Parameters): Result<(Source, Option<Source>), string> {
    if Lacking(p) then
      var loaded :- m.load(p.source.symbol, p.source.timeframe, p.steps, p.seed);
      var source := Historical(p.source.timeframe, loaded.1, Some(loaded.0));
      Ok((source, Some(source)))
    else Ok((p.source, None))
  }

  /** The walk of a set of parameters, with no cache in sight. */
  function Walk(m: Market, p: Parameters): Result<seq<Chain>, string> {
    var resolved :- Resolve(m, p);
    m.generate(p.(source := resolved.0))
  }

  /** The parameters once their source is resolved. */
  function Resolved(m: Market, p: Parameters): Parameters {
    match Resolve(m, p)
    case Ok(r) => p.(source := r.0)
    case Err(_) => p
  }

  /** The walk of parameters that lack nothing is generated from them as they
      are; a historical source without enough prices has them loaded for its own
      symbol, timeframe, length and seed, keeps its timeframe, and takes the
      symbol the load answers. */
  lemma WalkIsOfTheRequestedData(m: Market, p: Parameters)
    ensures p.source.Synthetic? || (p.source.prices != [] && p.steps <= |p.source.prices|) ==>
              Resolved(m, p) == p && Walk(m, p) == m.generate(p)
    ensures p.source.Historical? && (p.source.prices == [] || |p.source.prices| < p.steps) ==>
              match m.load(p.source.symbol, p.source.timeframe, p.steps, p.seed)
              case Err(reason) => Walk(m, p) == Err(reason) && Resolved(m, p) == p
              case Ok((symbol, prices)) =>
                && Resolved(m, p) == p.(source := Historical(p.source.timeframe, prices, Some(symbol)))
                && Walk(m, p) == m.generate(p.(source := Historical(p.source.timeframe, prices, Some(symbol))))
  {
  }

  /** A load that is asked for a symbol answers it. */
  ghost predicate AnswersTheSymbol(m: Market) {
    forall symbol, timeframe, steps, seed ::
      m.load(Some(symbol), timeframe, steps, seed).Ok? ==>
        m.load(Some(symbol), timeframe, steps, seed).value.0 == symbol
  }

  /** A session that names its instrument never walks another. */
  lemma SymbolIsKept(m: Market, p: Parameters)
    requires AnswersTheSymbol(m) && p.source.Historical? && p.source.symbol.Some?
    ensures Resolved(m, p).source.Historical? && Resolved(m, p).source.symbol == p.source.symbol
    ensures Resolved(m, p).source.timeframe == p.source.timeframe
    ensures Resolved(m, p).(source := p.source) == p
  {
    if Lacking(p) { var loaded := m.load(Some(p.source.symbol.value), p.source.timeframe, p.steps, p.seed); }
  }

  /** What else the database holds does not matter: markets that answer this
      session's one query alike, and generate alike, walk it alike. */
  lemma OnlyTheRequestedDataMatters(a: Market, b: Market, p: Parameters)
    requires a.generate == b.generate
    requires p.source.Historical? ==>
               a.load(p.source.symbol, p.source.timeframe, p.steps, p.seed) ==
               b.load(p.source.symbol, p.source.timeframe, p.steps, p.seed)
    ensures Walk(a, p) == Walk(b, p) && Resolved(a, p) == Resolved(b, p)
  {
  }

  /** Resolving is done once and for all, and does not change the walk. */
  lemma ResolvingSettles(m: Market, p: Parameters)
    requires LoadsExactly(m) && p.steps >= 1
    ensures Resolve(m, p).Ok? ==> !Lacking(Resolved(m, p))
    ensures Resolved(m, Resolved(m, p)) == Resolved(m, p)
    ensures Walk(m, Resolved(m, p)) == Walk(m, p)
  {
    if Lacking(p) { var loaded := m.load(p.source.symbol, p.source.timeframe, p.steps, p.seed); }
  }

  /** The chain a session's cursor points at, with no cache in sight. */
  function CurrentChain(m: Market, s: SessionData): Result<Chain, string> {
    var walk :- Walk(m, s.params);
    if s.cursor < |walk| then Ok(walk[s.cursor]) else Err("Walker reached end of data")
  }

  datatype CacheEntry = CacheEntry(walk: seq<Chain>, lastAccess: nat, resolved: Option<Source>)

  /** The entry is the walk of these parameters, and carries their resolution if
      they still lack it. */
  predicate Describes(m: Market, e: CacheEntry, p: Parameters) {
    && Walk(m, p) == Ok(e.walk)
    && Resolved(m, p) == match e.resolved
                         case None => p
                         case Some(source) => p.(source := source)
  }

  lemma StillDescribed(m: Market, e: CacheEntry, p: Parameters)
    requires LoadsExactly(m) && p.steps >= 1 && Describes(m, e, p)
    ensures Describes(m, e, Resolved(m, p))
  {
    ResolvingSettles(m, p);
  }

  class Simulator {
    const market: Market
    const maxCachedWalks: nat
    var cache: map<Id, CacheEntry>

    ghost predicate Bounded()
      reads this
    {
      1 <= maxCachedWalks && |cache| <= maxCachedWalks
    }

    constructor (market: Market, maxCachedWalks: nat)
      requires 1 <= maxCachedWalks
      ensures Bounded() && cache == map[] && this.market == market && this.maxCachedWalks == maxCachedWalks
    {
      this.market, this.maxCachedWalks := market, maxCachedWalks;
      cache := map[];
    }

    /** An entry no other was accessed before. */
    method LeastRecentlyUsed() returns (victim: Option<Id>)
      ensures victim.None? <==> cache == map[]
      ensures victim.Some? ==>
                victim.value in cache && forall id <- cache :: cache[victim.value].lastAccess <= cache[id].lastAccess
    {
      var rest := cache.Keys;
      if rest == {} { return None; }
      var best :| best in rest;
      rest := rest - {best};
      while rest != {}
        invariant rest <= cache.Keys && best in cache
        invariant forall id <- cache :: id in rest || cache[best].lastAccess <= cache[id].lastAccess
        decreases |rest|
      {
        var id :| id in rest;
        if cache[id].lastAccess < cache[best].lastAccess { best := id; }
        rest := rest - {id};
      }
      victim := Some(best);
    }

    /** Evicts the least recently accessed entries until at most `max` remain. */
    method EnforceCapacity(max: nat)
      modifies this`cache
      ensures |cache| == if |old(cache)| <= max then |old(cache)| else max
      ensures forall id <- cache :: id in old(cache) && cache[id] == old(cache)[id]
      ensures forall a, b | a in cache && b in old(cache) &&
              b !in cache :: old(cache)[b].lastAccess <= old(cache)[a].lastAccess
    {
      while |cache| > max
        invariant |cache| == |old(cache)| || max <= |cache| < |old(cache)|
        invariant forall id <- cache :: id in old(cache) && cache[id] == old(cache)[id]
        invariant forall a, b | a in cache && b in old(cache) &&
                  b !in cache :: old(cache)[b].lastAccess <= old(cache)[a].lastAccess
        decreases |cache|
      {
        var victim := LeastRecentlyUsed();
        if victim.None? { break; }
        assert (cache - {victim.value}).Keys == cache.Keys - {victim.value};
        cache := cache - {victim.value};
      }
    }

    /** Builds the walk of a session's parameters, resolving its source if it
        lacks data. */
    method CreateRandomWalk(params: Parameters) returns (r: Result<(seq<Chain>, Option<Source>), string>)
      ensures match r
              case Ok(built) => Walk(market, params) == Ok(built.0) && Resolve(market, params).Ok? &&
                Resolve(market, params).value.1 == built.1
              case Err(reason) => Walk(market, params) == Err(reason)
    {
      var source := params.source;
      var resolved: Option<Source> := None;
      if params.source.Historical? {
        if params.source.prices == [] || |params.source.prices| < params.steps {
          var loaded :- market.load(params.source.symbol, params.source.timeframe, params.steps, params.seed);
          source := Historical(params.source.timeframe, loaded.1, Some(loaded.0));
          resolved := Some(source);
        }
      }
      var walk :- market.generate(params.(source := source));
      r := Ok((walk, resolved));
    }

    /** Serves the session's current chain and writes the resolved source into
        it, whichever call built the walk. The cache is invisible as long as the
        entry of a session not just restarted describes its parameters. */
    method SimulateNextStep(session: Session, now: nat) returns (r: Result<Chain, string>)
      requires Bounded()
      requires session.id in cache && session.state != State.Reinitialized ==>
                 Describes(market, cache[session.id], session.params)
      modifies this`cache, session`params
      ensures Bounded()
      ensures r == CurrentChain(market, old(session.Data()))
      ensures r.Ok? ==> session.params == Resolved(market, old(session.params))
      ensures forall id <- cache :: id != session.id ==> id in old(cache) && cache[id] == old(cache)[id]
      ensures session.id in cache ==> Describes(market, cache[session.id], old(session.params))
      ensures r.Ok? ==> session.id in cache && cache[session.id].lastAccess == now
      ensures session.id in old(cache) && session.state != State.Reinitialized ==> cache.Keys == old(cache).Keys
    {
      var needNewWalk := session.id !in cache || session.state == State.Reinitialized;
      if session.state == State.Reinitialized { var _ := RemoveSession(session.id); }
      if needNewWalk {
        var built :- CreateRandomWalk(session.params);
        EnforceCapacity(maxCachedWalks - 1);
        cache := cache[session.id := CacheEntry(built.0, now, built.1)];
      }
      r := ServeCached(session, now);
    }

    /** Refreshes the entry, applies its resolution, and reads the step. */
    method ServeCached(session: Session, now: nat) returns (r: Result<Chain, string>)
      requires session.id in cache && Describes(market, cache[session.id], session.params)
      modifies this`cache, session`params
      ensures cache.Keys == old(cache).Keys
      ensures r == CurrentChain(market, old(session.Data()))
      ensures session.params == Resolved(market, old(session.params))
      ensures forall id <- cache :: id != session.id ==> cache[id] == old(cache)[id]
      ensures Describes(market, cache[session.id], old(session.params)) && cache[session.id].lastAccess == now
    {
      var entry := cache[session.id].(lastAccess := now);
      cache := cache[session.id := entry];
      if entry.resolved.Some? { session.params := session.params.(source := entry.resolved.value); }
      if session.cursor >= |entry.walk| { return Err("Walker reached end of data"); }
      r := Ok(entry.walk[session.cursor]);
    }

    method RemoveSession(id: Id) returns (removed: bool)
      modifies this`cache
      ensures cache == old(cache) - {id} && removed == (id in old(cache))
      ensures |cache| <= |old(cache)|
    {
      removed := id in cache;
      if removed { assert (cache - {id}).Keys == cache.Keys - {id}; } else { assert cache - {id} == cache; }
      cache := cache - {id};
    }
  }
}
