/** The v1 session manager, and the service it is without a cache. */
module SessionService {
  import opened Results
  import opened SessionModel
  import opened WalkCache

  datatype Request =
    | Create(id: Id, params: Parameters)
    | Advance(id: Id)
    | Peek(id: Id)
    | Patch(id: Id, params: Parameters)
    | Put(id: Id, params: Parameters)
    | Delete(id: Id)
    | Cleanup(expired: set<Id>)

  datatype Response =
    | Served(session: SessionData, chain: Chain)
    | Updated(session: SessionData)
    | Removed(found: bool)
    | Swept(count: nat)
    | Failed(failure: Failure)

  type Sessions = map<Id, SessionData>

  // ---- the service without a cache

  function Bumped(s: SessionData): Result<SessionData, Failure> {
    if s.version + 1 > U64_MAX then Err(VersionOverflow) else Ok(s.(version := s.version + 1))
  }

  /** Serves the current chain, then moves the cursor, and stores the resolved
      parameters with it. */
  function Advanced(m: Market, s: SessionData): Result<(SessionData, Chain), Failure> {
    if s.state == Completed || s.cursor >= s.total then Err(Finished)
    else if s.state == Error then Err(InvalidState)
    else
      match CurrentChain(m, s)
      case Err(reason) => Err(Simulator(reason))
      case Ok(chain) =>
        var next :- Bumped(Moved(s.(params := Resolved(m, s.params))));
        Ok((next, chain))
  }

  function Peeked(m: Market, s: SessionData): Result<(SessionData, Chain), Failure> {
    if s.state == Completed then Err(Finished)
    else if s.state == Error then Err(InvalidState)
    else
      match CurrentChain(m, s)
      case Err(reason) => Err(Simulator(reason))
      case Ok(chain) => Ok((s.(params := Resolved(m, s.params)), chain))
  }

  function Restart(sessions: Sessions, id: Id, params: Parameters): (Sessions, Response) {
    if id !in sessions then (sessions, Failed(NotFound))
    else
      match Bumped(Restarted(sessions[id], params))
      case Err(failure) => (sessions, Failed(failure))
      case Ok(s) => (sessions[id := s], Updated(s))
  }

  /** What a request answers and leaves behind when nothing is ever cached. */
  function Answer(m: Market, sessions: Sessions, q: Request): (Sessions, Response) {
    match q
    case Create(id, params) =>
      if id in sessions then (sessions, Failed(AlreadyExists))
      else (sessions[id := New(id, params)], Updated(New(id, params)))
    case Advance(id) =>
      if id !in sessions then (sessions, Failed(NotFound))
      else
        (match Advanced(m, sessions[id])
         case Err(failure) => (sessions, Failed(failure))
         case Ok(r) => (sessions[id := r.0], Served(r.0, r.1)))
    case Peek(id) =>
      if id !in sessions then (sessions, Failed(NotFound))
      else
        (match Peeked(m, sessions[id])
         case Err(failure) => (sessions, Failed(failure))
         case Ok(r) => (sessions, Served(r.0, r.1)))
    case Patch(id, params) => Restart(sessions, id, params)
    case Put(id, params) => Restart(sessions, id, params)
    case Delete(id) => (sessions - {id}, Removed(id in sessions))
    case Cleanup(expired) => (sessions - expired, Swept(|expired * sessions.Keys|))
  }

  function AnswerAll(m: Market, sessions: Sessions, requests: seq<Request>): (Sessions, seq<Response>)
    decreases |requests|
  {
    if requests == [] then (sessions, [])
    else
      var before := AnswerAll(m, sessions, requests[..|requests| - 1]);
      var last := Answer(m, before.0, requests[|requests| - 1]);
      (last.0, before.1 + [last.1])
  }

  // ---- the service with one

  /** Parameters the boundary lets through ask for at least one step. */
  predicate Asks(q: Request) {
    q.Create? || q.Patch? || q.Put? ==> q.params.steps >= 1
  }

  class SessionManager {
    const simulator: Simulator
    const market: Market
    var store: Sessions
    ghost var issued: set<Id>

    /** Whatever is cached for a session that was not just restarted describes
        its parameters; ids are never issued twice. */
    ghost predicate Valid()
      reads this, simulator
    {
      && simulator.market == market && LoadsExactly(market) && simulator.Bounded()
      && store.Keys <= issued && simulator.cache.Keys <= issued
      && forall id <- store :: CoherentFor(id)
    }

    ghost predicate CoherentFor(id: Id)
      requires id in store
      reads this, simulator
    {
      && store[id].id == id && store[id].params.steps >= 1
      && (id in simulator.cache && store[id].state != State.Reinitialized ==>
            Describes(market, simulator.cache[id], store[id].params))
    }

    constructor (market: Market, maxCachedWalks: nat)
      requires LoadsExactly(market) && 1 <= maxCachedWalks
      ensures Valid() && store == map[] && issued == {} && fresh(simulator) && this.market == market
    {
      simulator := new Simulator(market, maxCachedWalks);
      this.market := market;
      store := map[];
      issued := {};
    }

    /** The store's compare-and-swap. */
    method SaveCas(s: SessionData, expected: nat) returns (r: Result<(), Failure>)
      modifies this`store
      ensures r == if s.id !in old(store) then Err(NotFound)
                   else if old(store)[s.id].version != expected then Err(Conflict)
                   else Ok(())
      ensures store == if r.Ok? then old(store)[s.id := s] else old(store)
    {
      if s.id !in store { return Err(NotFound); }
      if store[s.id].version != expected { return Err(Conflict); }
      store := store[s.id := s];
      r := Ok(());
    }

    method CreateSession(id: Id, params: Parameters) returns (r: Response)
      requires Valid() && id !in issued && params.steps >= 1
      modifies this
      ensures Valid() && issued == old(issued) + {id}
      ensures (store, r) == Answer(market, old(store), Create(id, params))
    {
      issued := issued + {id};
      if id in store { return Failed(AlreadyExists); }
      store := store[id := New(id, params)];
      r := Updated(New(id, params));
    }

    /** Loads, guards, serves, moves, saves, and forgets the walk of a session
        that is over. */
    method GetNextStep(id: Id, now: nat) returns (r: Response)
      requires Valid()
      modifies this`store, simulator`cache
      ensures Valid() && (store, r) == Answer(market, old(store), Advance(id))
      ensures r.Served? && r.session.state == Completed ==> id !in simulator.cache
    {
      if id !in store { return Failed(NotFound); }
      var stored := store[id];
      var session := new Session(stored);
      if session.state == Completed || session.cursor >= session.total { return Failed(Finished); }
      if session.state == Error { return Failed(InvalidState); }
      var chain := simulator.SimulateNextStep(session, now);
      if chain.Err? { return Failed(Simulator(chain.error)); }
      r := Persist(session, stored, chain.value);
    }

    /** The writing half of an advance whose chain was served. */
    method Persist(session: Session, ghost stored: SessionData, chain: Chain) returns (r: Response)
      requires Valid() && session.id in store && store[session.id] == stored
      requires Active(stored) && stored.cursor < stored.total
      requires session.Data() == stored.(params := Resolved(market, stored.params))
      requires session.id in simulator.cache ==> Describes(market, simulator.cache[session.id], stored.params)
      modifies this`store, simulator`cache, session
      ensures Valid()
      ensures match Bumped(Moved(stored.(params := Resolved(market, stored.params))))
              case Err(failure) => store == old(store) && r == Failed(failure)
              case Ok(next) => store == old(store)[session.id := next] && r == Served(next, chain)
      ensures r.Served? && r.session.state == Completed ==> session.id !in simulator.cache
    {
      var id, expected := session.id, session.version;
      ResolvingKeepsSteps(market, stored.params);
      if id in simulator.cache { StillDescribed(market, simulator.cache[id], stored.params); }
      hide Describes, Resolved, LoadsExactly;
      var moved := AdvanceState(session);
      assert moved.Ok?; // an active session short of its total always moves
      var bumped := session.BumpVersion();
      if bumped.Err? { return Failed(bumped.error); }
      var data := session.Data();
      var saved := SaveCas(data, expected);
      assert saved.Ok?; // the store still holds the revision that was read
      if data.state == Completed { var _ := simulator.RemoveSession(id); }
      r := Served(data, chain);
    }

    /** Loads, guards and serves a copy, and writes nothing back. */
    method PeekCurrentStep(id: Id, now: nat) returns (r: Response)
      requires Valid()
      modifies simulator`cache
      ensures Valid() && (store, r) == Answer(market, old(store), Peek(id))
    {
      if id !in store { return Failed(NotFound); }
      var stored := store[id];
      var session := new Session(stored);
      if session.state == Completed { return Failed(Finished); }
      if session.state == Error { return Failed(InvalidState); }
      var chain := simulator.SimulateNextStep(session, now);
      if chain.Err? { return Failed(Simulator(chain.error)); }
      r := Served(session.Data(), chain.value);
    }

    /** PATCH and PUT alike restart the session on its new parameters; the walk
        still cached is stale until the next serve drops it. */
    method RestartSession(id: Id, params: Parameters) returns (r: Response)
      requires Valid() && params.steps >= 1
      modifies this`store
      ensures Valid() && (store, r) == Restart(old(store), id, params)
    {
      if id !in store { return Failed(NotFound); }
      var session := new Session(store[id]);
      var expected := session.version;
      session.Reinitialize(params);
      var bumped := session.BumpVersion();
      if bumped.Err? { return Failed(bumped.error); }
      var data := session.Data();
      var saved := SaveCas(data, expected);
      assert saved.Ok?; // the store still holds the revision that was read
      r := Updated(data);
    }

    method DeleteSession(id: Id) returns (r: Response)
      requires Valid()
      modifies this`store, simulator`cache
      ensures Valid() && (store, r) == Answer(market, old(store), Delete(id)) && id !in simulator.cache
    {
      var found := id in store;
      store := store - {id};
      var _ := simulator.RemoveSession(id);
      r := Removed(found);
    }

    /** Idle sessions leave the store; their walks stay until they age out. */
    method CleanupSessions(expired: set<Id>) returns (r: Response)
      requires Valid()
      modifies this`store
      ensures Valid() && (store, r) == Answer(market, old(store), Cleanup(expired))
    {
      var count := |expired * store.Keys|;
      store := store - expired;
      r := Swept(count);
    }

    method Serve(q: Request, now: nat) returns (r: Response)
      requires Valid() && Asks(q) && (q.Create? ==> q.id !in issued)
      modifies this, simulator`cache
      ensures Valid() && (store, r) == Answer(market, old(store), q)
      ensures issued == old(issued) + (if q.Create? then {q.id} else {})
    {
      match q {
        case Create(id, params) => r := CreateSession(id, params);
        case Advance(id) => r := GetNextStep(id, now);
        case Peek(id) => r := PeekCurrentStep(id, now);
        case Patch(id, params) => r := RestartSession(id, params);
        case Put(id, params) => r := RestartSession(id, params);
        case Delete(id) => r := DeleteSession(id);
        case Cleanup(expired) => r := CleanupSessions(expired);
      }
    }

    /** Walks may be forgotten between any two requests. */
    method Forget(id: Id)
      requires Valid()
      modifies simulator`cache
      ensures Valid()
    {
      var _ := simulator.RemoveSession(id);
    }

    /** Every run: with walks forgotten between the requests at will, the
        responses and the stored sessions are those of the service that caches
        nothing. */
    method ServeAll(requests: seq<Request>, forgotten: seq<set<Id>>) returns (responses: seq<Response>)
      requires Valid() && |forgotten| == |requests|
      requires forall i | 0 <= i < |requests| :: Asks(requests[i])
      requires forall i | 0 <= i < |requests| :: requests[i].Create? ==> requests[i].id !in issued
      requires forall i, j | 0 <= i < j < |requests| :: requests[i].Create? && requests[j].Create? ==>
                 requests[i].id != requests[j].id
      modifies this, simulator`cache
      ensures Valid() && (store, responses) == AnswerAll(market, old(store), requests)
      ensures |simulator.cache| <= simulator.maxCachedWalks
    {
      responses := [];
      var i := 0;
      while i < |requests|
        invariant 0 <= i <= |requests| && Valid()
        invariant (store, responses) == AnswerAll(market, old(store), requests[..i])
        invariant forall j | i <= j < |requests| :: requests[j].Create? ==> requests[j].id !in issued
      {
        ForgetAll(forgotten[i]);
        assert requests[..i + 1][..i] == requests[..i];
        var r := Serve(requests[i], i);
        responses := responses + [r];
        i := i + 1;
      }
      assert requests[..i] == requests;
    }

    method ForgetAll(ids: set<Id>)
      requires Valid()
      modifies simulator`cache
      ensures Valid()
    {
      var rest := ids;
      while rest != {}
        invariant Valid()
        decreases |rest|
      {
        var id :| id in rest;
        Forget(id);
        rest := rest - {id};
      }
    }
  }

  lemma ResolvingKeepsSteps(m: Market, p: Parameters)
    ensures Resolved(m, p).steps == p.steps
  {
  }

  // ---- what the service promises

  /** A cursor that has moved belongs to parameters that lack nothing: whichever
      call built the walk, the advance stored the resolved source. */
  ghost predicate Settled(m: Market, s: SessionData) {
    && s.params.steps >= 1 && s.total == s.params.steps && s.cursor <= s.total
    && (s.cursor > 0 ==> !Lacking(s.params) && Resolved(m, s.params) == s.params)
    && (s.state == Completed <==> s.cursor == s.total)
    && (s.state == InProgress <==> 0 < s.cursor < s.total)
    && s.state != Modified && s.state != Error
  }

  ghost predicate AllSettled(m: Market, sessions: Sessions) {
    forall id <- sessions :: sessions[id].id == id && Settled(m, sessions[id])
  }

  lemma AdvancedSettles(m: Market, s: SessionData)
    requires LoadsExactly(m) && Settled(m, s) && Advanced(m, s).Ok?
    ensures Settled(m, Advanced(m, s).value.0) && Advanced(m, s).value.0.id == s.id
  {
    ResolvingSettles(m, s.params);
    ResolvingKeepsSteps(m, s.params);
    hide Resolved, Lacking, LoadsExactly;
  }

  lemma StartsSettle(m: Market, s: SessionData, id: Id, params: Parameters)
    requires params.steps >= 1
    ensures Settled(m, New(id, params))
    ensures Bumped(Restarted(s, params)).Ok? ==> Settled(m, Bumped(Restarted(s, params)).value)
  {
  }

  lemma AnswerSettles(m: Market, sessions: Sessions, q: Request)
    requires LoadsExactly(m) && AllSettled(m, sessions) && Asks(q)
    ensures AllSettled(m, Answer(m, sessions, q).0)
  {
    match q
    case Create(id, params) => StartsSettle(m, New(id, params), id, params);
    case Advance(id) => if id in sessions && Advanced(m, sessions[id]).Ok? { AdvancedSettles(m, sessions[id]); }
    case Patch(id, params) => if id in sessions { StartsSettle(m, sessions[id], id, params); }
    case Put(id, params) => if id in sessions { StartsSettle(m, sessions[id], id, params); }
    case _ =>
    hide Settled, Advanced, Peeked, LoadsExactly;
  }

  lemma {:induction false} RunsSettle(m: Market, requests: seq<Request>)
    requires LoadsExactly(m) && forall i | 0 <= i < |requests| :: Asks(requests[i])
    ensures AllSettled(m, AnswerAll(m, map[], requests).0)
    decreases |requests|
  {
    if requests != [] {
      RunsSettle(m, requests[..|requests| - 1]);
      AnswerSettles(m, AnswerAll(m, map[], requests[..|requests| - 1]).0, requests[|requests| - 1]);
    }
  }

  /** After any run, an advance serves the chain of the current parameters at the
      cursor, moves one step, and stores parameters that walk the same walk and
      need no resolving again. */
  lemma AdvanceServesTheCurrentWalk(m: Market, requests: seq<Request>, id: Id)
    requires LoadsExactly(m) && forall i | 0 <= i < |requests| :: Asks(requests[i])
    requires id in AnswerAll(m, map[], requests).0
    requires Answer(m, AnswerAll(m, map[], requests).0, Advance(id)).1.Served?
    ensures var sessions := AnswerAll(m, map[], requests).0;
            var s := sessions[id];
            var t := Answer(m, sessions, Advance(id)).1.session;
            && Walk(m, s.params).Ok? && s.cursor < |Walk(m, s.params).value|
            && Answer(m, sessions, Advance(id)).1.chain == Walk(m, s.params).value[s.cursor]
            && t.cursor == s.cursor + 1 && t.version == s.version + 1
            && (t.state == Completed <==> t.cursor == t.total)
            && !Lacking(t.params) && Walk(m, t.params) == Walk(m, s.params)
            && t.params.(source := s.params.source) == s.params
            && (AnswersTheSymbol(m) && s.params.source.Historical? && s.params.source.symbol.Some? ==>
                  t.params.source.Historical? && t.params.source.symbol == s.params.source.symbol)
  {
    RunsSettle(m, requests);
    var p := AnswerAll(m, map[], requests).0[id].params;
    ResolvingSettles(m, p);
    if AnswersTheSymbol(m) && p.source.Historical? && p.source.symbol.Some? { SymbolIsKept(m, p); }
    hide AnswersTheSymbol, LoadsExactly;
  }

  /** After any run, an advance is refused for exactly one reason, in this order,
      and a refusal changes nothing: no such session, every step served, no walk
      or none at the cursor, no revision left. */
  lemma AdvanceOutcome(m: Market, requests: seq<Request>, id: Id)
    requires LoadsExactly(m) && forall i | 0 <= i < |requests| :: Asks(requests[i])
    ensures var sessions := AnswerAll(m, map[], requests).0;
            var (after, r) := Answer(m, sessions, Advance(id));
            if id !in sessions then after == sessions && r == Failed(NotFound)
            else
              var s := sessions[id];
              var walk := Walk(m, s.params);
              if s.cursor == s.total then after == sessions && r == Failed(Finished)
              else if walk.Err? then after == sessions && r == Failed(Simulator(walk.error))
              else if |walk.value| <= s.cursor then after == sessions && r.Failed? && r.failure.Simulator?
              else if s.version >= U64_MAX then after == sessions && r == Failed(VersionOverflow)
              else r.Served? && r.chain == walk.value[s.cursor] && after == sessions[id := r.session]
  {
    RunsSettle(m, requests);
  }

  /** A peek serves the chain an advance would serve next, and leaves every
      session as it was. */
  lemma PeekLooksAtTheNextChain(m: Market, sessions: Sessions, id: Id)
    ensures Answer(m, sessions, Peek(id)).0 == sessions
    ensures Answer(m, sessions, Advance(id)).1.Served? ==>
              && Answer(m, sessions, Peek(id)).1.Served?
              && Answer(m, sessions, Peek(id)).1.chain == Answer(m, sessions, Advance(id)).1.chain
              && Answer(m, sessions, Peek(id)).1.session.cursor == sessions[id].cursor
  {
  }

  /** What the other requests leave: a session created at its start, a restarted
      one back at it one revision on, none of those deleted or expired, and every
      session a request does not name as it was. */
  lemma RequestsDoWhatTheySay(m: Market, sessions: Sessions, q: Request)
    ensures var (after, r) := Answer(m, sessions, q);
            match q
            case Create(id, params) =>
              if id in sessions then after == sessions && r == Failed(AlreadyExists)
              else
                var s := SessionData(id, params, 0, params.steps, Initialized, 0);
                after == sessions[id := s] && r == Updated(s)
            case Delete(id) => after == sessions - {id} && r == Removed(id in sessions)
            case Cleanup(expired) => after == sessions - expired && r == Swept(|expired * sessions.Keys|)
            case Advance(id) => forall other :: other != id ==> SameSession(sessions, after, other)
            case Peek(_) => after == sessions
            case _ =>
              if q.id !in sessions then after == sessions && r == Failed(NotFound)
              else if sessions[q.id].version >= U64_MAX then after == sessions && r == Failed(VersionOverflow)
              else
                var s := SessionData(sessions[q.id].id, q.params, 0, q.params.steps, State.Reinitialized,
                           sessions[q.id].version + 1);
                after == sessions[q.id := s] && r == Updated(s)
  {
  }

  predicate SameSession(a: Sessions, b: Sessions, id: Id) {
    (id in a <==> id in b) && (id in a && id in b ==> a[id] == b[id])
  }

  /** Nor does it matter what data the database holds for other sessions. */
  lemma OtherDataChangesNoAnswer(a: Market, b: Market, sessions: Sessions, q: Request)
    requires a.generate == b.generate
    requires (q.Advance? || q.Peek?) && q.id in sessions && sessions[q.id].params.source.Historical? ==>
               var p := sessions[q.id].params;
               a.load(p.source.symbol, p.source.timeframe, p.steps, p.seed) ==
               b.load(p.source.symbol, p.source.timeframe, p.steps, p.seed)
    ensures Answer(a, sessions, q) == Answer(b, sessions, q)
  {
    if (q.Advance? || q.Peek?) && q.id in sessions { OnlyTheRequestedDataMatters(a, b, sessions[q.id].params); }
  }

  /** A restart sends the next serve, peek or advance, back to the first chain of
      the new walk. Where that walk does not build or is empty the serve says so,
      and an advance can still refuse to wrap the revision. */
  lemma RestartServesFromTheStart(m: Market, sessions: Sessions, id: Id, params: Parameters, q: Request)
    requires id in sessions && Restart(sessions, id, params).1.Updated? && params.steps >= 1
    requires q == Peek(id) || q == Advance(id)
    ensures var after := Restart(sessions, id, params).0;
            var walk := Walk(m, params);
            match Answer(m, after, q).1
            case Served(s, chain) =>
              && walk.Ok? && walk.value != [] && chain == walk.value[0]
              && s.cursor == (if q.Advance? then 1 else 0)
            case Failed(failure) =>
              if walk.Err? || walk.value == [] then failure.Simulator?
              else q.Advance? && failure == VersionOverflow && after[id].version == U64_MAX
            case _ => false
  {
  }
}
