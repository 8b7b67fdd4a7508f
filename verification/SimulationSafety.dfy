/** What every interleaving of the v2 manager keeps. */
module SimulationSafety {
  import opened Results
  import opened SimulationModel
  import opened SimulationProtocol
  import Ordering

  /** The snapshot is the one a read with no cache at all would have built. */
  predicate IsPure(w: World, params: Params, step: nat, snap: Snap) {
    Pure(w, params, step) == Ok(snap)
  }

  // ---- the invariant, part by part

  ghost predicate Known(s: System, x: Simulation) {
    x.id in s.created && s.created[x.id] == x.params
  }

  /** Requests that are past their compare-and-swap, or gone. */
  predicate Past(c: Client) {
    c.Committed? || c.EvictTape? || c.EvictSnapshots? || c.Done? || c.Dropped?
  }

  /** The advances committed on `id`, oldest first, served pure snapshots and
      never ran past the horizon. */
  ghost predicate LogOk(w: World, s: System, id: Id) {
    && id in s.served
    && id in s.created
    && |s.served[id]| <= w.steps(s.created[id])
    && forall step | 0 <= step < |s.served[id]| ::
         && s.served[id][step].winner < |s.clients|
         && Past(s.clients[s.served[id][step].winner])
         && IsPure(w, s.created[id], step, s.served[id][step].snap)
  }

  /** The stored document is the one its log says it is. */
  ghost predicate DocumentOk(w: World, s: System, id: Id) {
    && id in s.store
    && s.store[id].id == id
    && Known(s, s.store[id])
    && Lawful(w, s.store[id])
    && |Log(s, id)| == s.store[id].cursor
  }

  ghost predicate StoreOk(w: World, s: System) {
    && s.created.Keys == s.served.Keys
    && (forall id <- s.created :: LogOk(w, s, id))
    && (forall id <- s.store :: DocumentOk(w, s, id))
  }

  ghost predicate CachesOk(w: World, s: System) {
    && |s.tapes| <= w.capacity
    && (forall id <- s.tapes :: id in s.created && w.build(s.created[id]) == Ok(s.tapes[id]))
    && (forall key <- s.snaps :: key.0 in s.created && IsPure(w, s.created[key.0], key.1, s.snaps[key]))
    && (forall i | 0 <= i < |s.detached| :: s.detached[i] in s.created)
  }

  ghost predicate JobOk(w: World, s: System, x: Simulation) {
    && Known(s, x)
    && Lawful(w, x)
    && x.cursor < x.total
    && x.cursor <= |Log(s, x.id)|
  }

  /** An answer names the step it served. A peek leaves the cursor there; an
      advance is one past it and owns that step's log entry. */
  ghost predicate AnswerOk(w: World, s: System, k: nat, x: Simulation, step: nat, snap: Snap) {
    && Known(s, x)
    && Lawful(w, x)
    && IsPure(w, x.params, step, snap)
    && step < x.total
    && (x.cursor == step || (x.cursor == step + 1 && step < |Log(s, x.id)| && Log(s, x.id)[step] == Entry(k, snap)))
  }

  ghost predicate OutcomeOk(w: World, s: System, k: nat, o: Outcome) {
    match o
    case Answer(x, step, snap) => AnswerOk(w, s, k, x, step, snap)
    case Deleted(_) => true
    case Swept(_) => true
    case Failed(failure) =>
      failure.NotFound? || failure.Gone? || failure.Conflict? || failure.Simulator? || failure.Internal?
  }

  ghost predicate ClientOk(w: World, s: System, k: nat, c: Client) {
    match c
    case Fetch(_, _) => true
    case LookSnapshot(job) => JobOk(w, s, job.x)
    case LookTape(job) => JobOk(w, s, job.x)
    case Claim(job) => JobOk(w, s, job.x)
    case Waiting(job, _) => JobOk(w, s, job.x)
    case Building(job, _) => JobOk(w, s, job.x)
    case Built(job, _, result) => JobOk(w, s, job.x) && result == w.build(job.x.params)
    case Unlisted(job, _, result) => JobOk(w, s, job.x) && result == w.build(job.x.params)
    case Price(job, tape) => JobOk(w, s, job.x) && w.build(job.x.params) == Ok(tape)
    case CacheSnapshot(job, snap) => JobOk(w, s, job.x) && IsPure(w, job.x.params, job.x.cursor, snap)
    case Commit(job, snap) => JobOk(w, s, job.x) && IsPure(w, job.x.params, job.x.cursor, snap)
    case Committed(x, snap) => x.cursor > 0 && AnswerOk(w, s, k, x, x.cursor - 1, snap)
    case EvictTape(_, o) => OutcomeOk(w, s, k, o)
    case EvictSnapshots(_, o) => OutcomeOk(w, s, k, o)
    case Remove(_) => true
    case Sweep => true
    case Done(o) => OutcomeOk(w, s, k, o)
    case Dropped => true
  }

  ghost predicate ClientsOk(w: World, s: System) {
    forall k | 0 <= k < |s.clients| :: ClientOk(w, s, k, s.clients[k])
  }

  /** The channel a request must still publish on, if it has one. */
  function Carries(c: Client): Option<nat> {
    match c
    case Building(_, owned) => owned
    case Built(_, owned, _) => owned
    case Unlisted(_, ch, _) => Some(ch)
    case _ => None
  }

  predicate Listed(s: System, id: Id, ch: nat) {
    id in s.builds && s.builds[id] == ch
  }

  /** A request that builds is the one owner of the one open channel of its id;
      a request that waits, waits on a channel of its id. */
  ghost predicate FlightOk(s: System, k: nat, c: Client) {
    match c
    case Building(job, owned) =>
      && owned.Some? && owned.value < |s.channels|
      && s.channels[owned.value] == Channel(job.x.id, k, None)
      && Listed(s, job.x.id, owned.value)
    case Built(job, owned, _) =>
      && owned.Some? && owned.value < |s.channels|
      && s.channels[owned.value] == Channel(job.x.id, k, None)
      && Listed(s, job.x.id, owned.value)
    case Unlisted(job, ch, _) =>
      && ch < |s.channels|
      && s.channels[ch] == Channel(job.x.id, k, None)
      && !Listed(s, job.x.id, ch)
    case Waiting(job, ch) => ch < |s.channels| && s.channels[ch].id == job.x.id
    case _ => true
  }

  /** A silent channel has its owner still bound to publish on it, unless that
      request was dropped with the channel still listed. */
  ghost predicate ChannelOk(w: World, s: System, ch: nat)
    requires ch < |s.channels|
  {
    var c := s.channels[ch];
    && c.id in s.created
    && c.owner < |s.clients|
    && match c.message
       case Some(result) => result == w.build(s.created[c.id])
       case None => Carries(s.clients[c.owner]) == Some(ch) || (s.clients[c.owner].Dropped? && Listed(s, c.id, ch))
  }

  ghost predicate ListingOk(s: System, id: Id) {
    && id in s.builds
    && s.builds[id] < |s.channels|
    && s.channels[s.builds[id]].id == id
    && s.channels[s.builds[id]].message.None?
  }

  ghost predicate FlightsOk(w: World, s: System) {
    && (forall k | 0 <= k < |s.clients| :: FlightOk(s, k, s.clients[k]))
    && (forall ch | 0 <= ch < |s.channels| :: ChannelOk(w, s, ch))
    && (forall id <- s.builds :: ListingOk(s, id))
  }

  /** Filed steps were committed, by a request past its commit, and are filed once. */
  ghost predicate FiledOk(s: System) {
    && (forall i | 0 <= i < |s.filed| ::
          && s.filed[i].1 < |Log(s, s.filed[i].0)|
          && Log(s, s.filed[i].0)[s.filed[i].1].winner < |s.clients|
          && !s.clients[Log(s, s.filed[i].0)[s.filed[i].1].winner].Committed?)
    && (forall i, j | 0 <= i < j < |s.filed| :: s.filed[i] != s.filed[j])
  }

  ghost predicate Inv(w: World, s: System) {
    && StoreOk(w, s)
    && CachesOk(w, s)
    && ClientsOk(w, s)
    && FlightsOk(w, s)
    && FiledOk(s)
  }

  // ---- history only grows, and what a request holds survives that

  ghost predicate Grows(s: System, t: System) {
    && (forall id <- s.created :: id in t.created && t.created[id] == s.created[id])
    && (forall id <- s.created :: Log(s, id) <= Log(t, id))
  }

  lemma ClientSurvives(w: World, s: System, t: System, k: nat, c: Client)
    requires Grows(s, t) && ClientOk(w, s, k, c)
    ensures ClientOk(w, t, k, c)
  {
    forall x: Simulation | Known(s, x) ensures Log(s, x.id) <= Log(t, x.id) {}
  }

  lemma ClientsSurvive(w: World, s: System, t: System, k: nat)
    requires ClientsOk(w, s) && Grows(s, t)
    requires |s.clients| == |t.clients| && k < |t.clients|
    requires forall j | 0 <= j < |t.clients| && j != k :: t.clients[j] == s.clients[j]
    requires ClientOk(w, t, k, t.clients[k])
    ensures ClientsOk(w, t)
  {
    forall j | 0 <= j < |t.clients| ensures ClientOk(w, t, j, t.clients[j]) {
      if j != k { ClientSurvives(w, s, t, j, s.clients[j]); }
    }
  }

  // ---- one action keeps each part

  /** Client `k` alone moved, and not back before its commit. */
  ghost predicate Reseats(s: System, t: System, k: nat) {
    && k < |s.clients|
    && OnlyMoves(s, t, k)
    && (Past(s.clients[k]) ==> Past(t.clients[k]))
    && (t.clients[k].Committed? ==> s.clients[k].Committed?)
  }

  lemma StoreKept(w: World, s: System, t: System, k: nat)
    requires StoreOk(w, s) && Reseats(s, t, k)
    requires t.created == s.created && t.served == s.served
    requires forall id <- t.store :: id in s.store && t.store[id] == s.store[id]
    ensures StoreOk(w, t)
  {
    forall id <- t.created ensures LogOk(w, t, id) { assert LogOk(w, s, id); }
    forall id <- t.store ensures DocumentOk(w, t, id) { assert DocumentOk(w, s, id); }
  }

  lemma FiledKept(s: System, t: System, k: nat)
    requires FiledOk(s) && Reseats(s, t, k)
    requires t.served == s.served && t.filed == s.filed
    ensures FiledOk(t)
  {
    forall id ensures Log(t, id) == Log(s, id) {}
  }

  /** The flights do not notice a client that carries no channel before or after. */
  lemma FlightsKept(w: World, s: System, t: System, k: nat)
    requires FlightsOk(w, s) && k < |s.clients| && OnlyMoves(s, t, k)
    requires t.builds == s.builds && t.channels == s.channels
    requires forall id <- s.created :: id in t.created && t.created[id] == s.created[id]
    requires Carries(s.clients[k]).None? && !s.clients[k].Dropped?
    requires FlightOk(t, k, t.clients[k])
    ensures FlightsOk(w, t)
  {
    forall j | 0 <= j < |t.clients| ensures FlightOk(t, j, t.clients[j]) {
      if j != k { assert FlightOk(s, j, s.clients[j]); }
    }
    forall ch | 0 <= ch < |t.channels| ensures ChannelOk(w, t, ch) { assert ChannelOk(w, s, ch); }
    forall id <- t.builds ensures ListingOk(t, id) { assert ListingOk(s, id); }
  }

  /** A step that writes no history and keeps every stored document it does not
      remove. */
  lemma HistoryKept(w: World, s: System, t: System, k: nat)
    requires StoreOk(w, s) && FiledOk(s) && ClientsOk(w, s) && Reseats(s, t, k)
    requires t.created == s.created && t.served == s.served && t.filed == s.filed
    requires forall id <- t.store :: id in s.store && t.store[id] == s.store[id]
    requires ClientOk(w, s, k, t.clients[k])
    ensures StoreOk(w, t) && FiledOk(t) && ClientsOk(w, t)
  {
    StoreKept(w, s, t, k);
    FiledKept(s, t, k);
    ClientSurvives(w, s, t, k, t.clients[k]);
    ClientsSurvive(w, s, t, k);
  }

  /** A step that changes nothing but where client `k` stands. */
  lemma MoveKeepsInv(w: World, s: System, k: nat, c: Client)
    requires Inv(w, s) && k < |s.clients|
    requires Carries(s.clients[k]).None? && !s.clients[k].Dropped?
    requires ClientOk(w, s, k, c) && FlightOk(s, k, c)
    requires Past(s.clients[k]) ==> Past(c)
    requires c.Committed? ==> s.clients[k].Committed?
    ensures Inv(w, Move(s, k, c))
  {
    var t := Move(s, k, c);
    HistoryKept(w, s, t, k);
    FlightsKept(w, s, t, k);
  }

  predicate Within<K, V(==)>(a: map<K, V>, b: map<K, V>) {
    forall k <- a :: k in b && b[k] == a[k]
  }

  /** Caches may lose anything. */
  lemma CachesShrink(w: World, s: System, t: System)
    requires CachesOk(w, s)
    requires Within(t.tapes, s.tapes) && Within(t.snaps, s.snaps) && t.detached == s.detached
    requires Within(s.created, t.created)
    ensures CachesOk(w, t)
  {
    Ordering.SubsetSize(t.tapes.Keys, s.tapes.Keys);
  }

  /** Everything but the commit and the filing leaves the history alone, keeps
      the documents it does not remove, and moves one client forward. */
  ghost predicate Frame(s: System, t: System, k: nat) {
    && Reseats(s, t, k)
    && t.created == s.created && t.served == s.served && t.filed == s.filed
    && Within(t.store, s.store)
  }

  /** `Frame`, with the caches at most emptier. */
  ghost predicate Shrinks(s: System, t: System, k: nat) {
    && Frame(s, t, k)
    && Within(t.tapes, s.tapes) && Within(t.snaps, s.snaps) && t.detached == s.detached
  }

  lemma JoinFrame(s: System, k: nat, job: Job)
    requires k < |s.clients| && s.clients[k].Claim?
    ensures Shrinks(s, Join(s, k, job), k)
  {
  }

  lemma UnlistFrame(s: System, k: nat, job: Job, owned: Option<nat>, result: Result<Tape, string>)
    requires k < |s.clients| && s.clients[k].Built?
    ensures Shrinks(s, Unlist(s, k, job, owned, result), k)
  {
  }

  lemma PublishFrame(s: System, k: nat, job: Job, ch: nat, result: Result<Tape, string>)
    requires k < |s.clients| && s.clients[k].Unlisted?
    ensures Shrinks(s, Publish(s, k, job, ch, result), k)
  {
  }

  /** On the way to outcome `o`, with only evictions left. */
  predicate Leads(c: Client, o: Outcome) {
    (c.EvictTape? || c.EvictSnapshots? || c.Done?) && c.outcome == o
  }

  /** `Shrinks`, leaving the build table and the channels alone. */
  ghost predicate Evicts(s: System, t: System, k: nat) {
    && Shrinks(s, t, k)
    && t.builds == s.builds && t.channels == s.channels
    && Carries(t.clients[k]).None? && !t.clients[k].Waiting?
  }

  lemma DropTapeFrame(s: System, k: nat, ids: seq<Id>, o: Outcome)
    requires k < |s.clients| && s.clients[k].EvictTape?
    ensures Evicts(s, DropTape(s, k, ids, o), k)
  {
  }

  lemma DropSnapshotsFrame(s: System, k: nat, ids: seq<Id>, o: Outcome)
    requires k < |s.clients| && s.clients[k].EvictSnapshots?
    ensures Evicts(s, DropSnapshots(s, k, ids, o), k)
  {
    if ids != [] { assert Within(Without(s.snaps, ids[0]), s.snaps); }
    hide Without;
  }

  lemma DropLeads(s: System, k: nat, ids: seq<Id>, o: Outcome)
    requires k < |s.clients|
    ensures Leads(DropTape(s, k, ids, o).clients[k], o) && Leads(DropSnapshots(s, k, ids, o).clients[k], o)
  {
    hide Without;
  }

  lemma DeletionFrame(s: System, k: nat, c: Client, gone: set<Id>)
    requires k < |s.clients| && (s.clients[k].Remove? || s.clients[k].Sweep?) && (c.EvictTape? || c.Done?)
    ensures Evicts(s, Move(s, k, c).(store := s.store - gone), k)
  {
  }

  lemma EvictFrame(w: World, s: System, k: nat, choice: Choice) returns (o: Outcome)
    requires k < |s.clients|
    requires s.clients[k].EvictTape? || s.clients[k].EvictSnapshots? || s.clients[k].Remove? || s.clients[k].Sweep?
    ensures Evicts(s, Next(w, s, k, choice), k)
    ensures Leads(Next(w, s, k, choice).clients[k], o)
    ensures o.Deleted? || o.Swept? || Leads(s.clients[k], o)
  {
    hide Evicts, DropTape, DropSnapshots;
    match s.clients[k]
    case EvictTape(ids, out) =>
      DropTapeFrame(s, k, ids, out);
      DropLeads(s, k, ids, out);
      o := out;
    case EvictSnapshots(ids, out) =>
      DropSnapshotsFrame(s, k, ids, out);
      DropLeads(s, k, ids, out);
      o := out;
    case Remove(id) =>
      o := Deleted(id in s.store);
      DeletionFrame(s, k, EvictTape([id], o), {id});
    case Sweep =>
      o := Swept(choice.expired);
      DeletionFrame(s, k, Evicting(choice.expired, o), set id | id in choice.expired);
  }

  // ---- reads

  /** A request is turned away exactly when its simulation is not stored or has
      served every step; otherwise it works on the stored document. */
  lemma FetchOutcome(w: World, s: System, k: nat, choice: Choice)
    requires Inv(w, s) && k < |s.clients| && s.clients[k].Fetch?
    ensures var id := s.clients[k].id;
            var c := Next(w, s, k, choice).clients[k];
            && (c == Done(Failed(NotFound)) <==> id !in s.store)
            && (c == Done(Failed(Gone)) <==> id in s.store && |Log(s, id)| == w.steps(s.created[id]))
            && (c.LookSnapshot? <==> id in s.store && |Log(s, id)| < w.steps(s.created[id]))
            && (c.LookSnapshot? ==> c.job == Job(s.store[id], s.clients[k].advance))
  {
    var id := s.clients[k].id;
    hide FlightsOk, ClientsOk, CachesOk, FiledOk;
    if id in s.store {
      assert DocumentOk(w, s, id);
      AdvanceIsLawful(w, s.store[id]);
    }
  }

  lemma FetchKeepsInv(w: World, s: System, k: nat, choice: Choice)
    requires Inv(w, s) && k < |s.clients| && s.clients[k].Fetch?
    ensures Inv(w, Next(w, s, k, choice))
  {
    hide FiledOk, FlightsOk, CachesOk, LogOk;
    var id := s.clients[k].id;
    if id in s.store {
      assert DocumentOk(w, s, id);
      AdvanceIsLawful(w, s.store[id]);
    }
    MoveKeepsInv(w, s, k, Next(w, s, k, choice).clients[k]);
  }

  /** A cached snapshot is the one an uncached read builds, */
  lemma ReadSnapshotKeepsInv(w: World, s: System, k: nat, job: Job)
    requires Inv(w, s) && k < |s.clients| && s.clients[k] == LookSnapshot(job)
    ensures Inv(w, ReadSnapshot(s, k, job))
  {
    hide StoreOk, FiledOk, FlightsOk, Lawful;
    assert ClientOk(w, s, k, s.clients[k]);
    var c := ReadSnapshot(s, k, job).clients[k];
    assert ClientOk(w, s, k, c) && Carries(c).None? && !c.Waiting? && !c.Committed?;
    MoveKeepsInv(w, s, k, c);
  }

  /** a cached tape is the one it builds, */
  lemma ReadTapeKeepsInv(w: World, s: System, k: nat, job: Job)
    requires Inv(w, s) && k < |s.clients| && s.clients[k] == LookTape(job)
    ensures Inv(w, ReadTape(s, k, job))
  {
    hide StoreOk, FiledOk, FlightsOk, Lawful;
    assert ClientOk(w, s, k, s.clients[k]);
    var c := ReadTape(s, k, job).clients[k];
    assert ClientOk(w, s, k, c) && Carries(c).None? && !c.Waiting? && !c.Committed?;
    MoveKeepsInv(w, s, k, c);
  }

  /** and so is a snapshot priced off it. */
  lemma PriceKeepsInv(w: World, s: System, k: nat, job: Job, tape: Tape)
    requires Inv(w, s) && k < |s.clients| && s.clients[k] == Price(job, tape)
    ensures Inv(w, PriceSnapshot(w, s, k, job, tape))
  {
    hide StoreOk, FiledOk, FlightsOk, Lawful, CachesOk;
    assert ClientOk(w, s, k, s.clients[k]);
    var c := PriceSnapshot(w, s, k, job, tape).clients[k];
    assert ClientOk(w, s, k, c) && Carries(c).None? && !c.Waiting? && !c.Committed?;
    MoveKeepsInv(w, s, k, c);
  }

  /** While a request waits, its channel has spoken or can still speak, unless
      its owner was dropped; the arm that rebuilds is never taken. */
  lemma SenderIsHeld(w: World, s: System, k: nat)
    requires Inv(w, s) && k < |s.clients| && s.clients[k].Waiting?
    ensures s.clients[k].channel < |s.channels|
    ensures s.channels[s.clients[k].channel].message.Some? || SenderHeld(s, s.clients[k].channel)
  {
    var ch := s.clients[k].channel;
    assert FlightOk(s, k, s.clients[k]);
    assert ChannelOk(w, s, ch);
    var c := s.channels[ch];
    if c.message.None? {
      assert FlightOk(s, c.owner, s.clients[c.owner]);
      if Listed(s, c.id, ch) { assert ch in s.builds.Values; }
    }
  }

  /** Whoever waited receives what the owner's one build returned. */
  lemma ReceiveIsPure(w: World, s: System, k: nat, choice: Choice)
    requires Inv(w, s) && k < |s.clients| && s.clients[k].Waiting? && CanStep(w, s, k, choice)
    ensures var c := Next(w, s, k, choice).clients[k];
            && Next(w, s, k, choice) == Move(s, k, c)
            && ClientOk(w, s, k, c)
            && match w.build(s.clients[k].job.x.params)
               case Ok(tape) => c == Price(s.clients[k].job, tape)
               case Err(reason) => c == Done(Failed(Internal(reason)))
  {
    SenderIsHeld(w, s, k);
    assert ClientOk(w, s, k, s.clients[k]);
    assert FlightOk(s, k, s.clients[k]);
    assert ChannelOk(w, s, s.clients[k].channel);
  }

  lemma ReceiveKeepsInv(w: World, s: System, k: nat, choice: Choice)
    requires Inv(w, s) && k < |s.clients| && s.clients[k].Waiting? && CanStep(w, s, k, choice)
    ensures Inv(w, Next(w, s, k, choice))
  {
    ReceiveIsPure(w, s, k, choice);
    hide Next, ClientOk, CanStep;
    MoveKeepsInv(w, s, k, Next(w, s, k, choice).clients[k]);
  }

  // ---- single flight

  lemma JoinFlights(w: World, s: System, k: nat, job: Job)
    requires FlightsOk(w, s) && k < |s.clients| && s.clients[k].Claim? && job.x.id in s.created
    ensures FlightsOk(w, Join(s, k, job))
  {
    var t := Join(s, k, job);
    var id := job.x.id;
    if id in s.builds {
      assert ListingOk(s, id);
      FlightsKept(w, s, t, k);
    } else {
      assert t.channels == s.channels + [Channel(id, k, None)] && t.builds == s.builds[id := |s.channels|];
      assert forall j | 0 <= j < |t.clients| && j != k :: t.clients[j] == s.clients[j];
      assert t.clients[k] == Building(job, Some(|s.channels|));
      hide Join;
      forall j | 0 <= j < |t.clients| ensures FlightOk(t, j, t.clients[j]) { assert FlightOk(s, j, s.clients[j]); }
      forall ch | 0 <= ch < |t.channels| ensures ChannelOk(w, t, ch) {
        if ch < |s.channels| { assert ChannelOk(w, s, ch); }
      }
      forall i <- t.builds ensures ListingOk(t, i) {
        if i != id { assert ListingOk(s, i); }
      }
    }
  }

  lemma JoinClient(w: World, s: System, k: nat, job: Job)
    requires k < |s.clients| && JobOk(w, s, job.x)
    ensures ClientOk(w, s, k, Join(s, k, job).clients[k])
  {
    hide JobOk;
  }

  lemma OwnerClient(w: World, s: System, k: nat, job: Job, owned: Option<nat>, ch: nat, choice: Choice)
    requires k < |s.clients| && JobOk(w, s, job.x)
    ensures ClientOk(w, s, k, Build(w, s, k, job, owned, choice.tapes).clients[k])
    ensures ClientOk(w, s, k, Unlist(s, k, job, owned, w.build(job.x.params)).clients[k])
    ensures ch < |s.channels| ==> ClientOk(w, s, k, Publish(s, k, job, ch, w.build(job.x.params)).clients[k])
  {
    hide JobOk, Filed;
  }

  lemma ClaimKeepsInv(w: World, s: System, k: nat, choice: Choice)
    requires Inv(w, s) && k < |s.clients| && s.clients[k].Claim?
    ensures Inv(w, Next(w, s, k, choice))
  {
    var t := Next(w, s, k, choice);
    assert ClientOk(w, s, k, s.clients[k]);
    JoinClient(w, s, k, s.clients[k].job);
    JoinFrame(s, k, s.clients[k].job);
    JoinFlights(w, s, k, s.clients[k].job);
    assert t == Join(s, k, s.clients[k].job);
    hide Next, FlightsOk, ClientOk;
    CachesShrink(w, s, t);
    HistoryKept(w, s, t, k);
  }

  lemma FilingATapeIsPure(w: World, s: System, id: Id, displaced: set<Id>)
    requires CachesOk(w, s) && id in s.created
    ensures forall i <- Filed(w, s.tapes, id, s.created[id], displaced) ::
              i in s.created && w.build(s.created[i]) == Ok(Filed(w, s.tapes, id, s.created[id], displaced)[i])
  {
  }

  lemma BuildFlights(w: World, s: System, k: nat, choice: Choice)
    requires FlightsOk(w, s) && k < |s.clients| && s.clients[k].Building?
    ensures FlightsOk(w, Next(w, s, k, choice))
  {
    var t := Next(w, s, k, choice);
    assert FlightOk(s, k, s.clients[k]);
    forall j | 0 <= j < |t.clients| ensures FlightOk(t, j, t.clients[j]) { assert FlightOk(s, j, s.clients[j]); }
    forall ch | 0 <= ch < |t.channels| ensures ChannelOk(w, t, ch) { assert ChannelOk(w, s, ch); }
    forall id <- t.builds ensures ListingOk(t, id) { assert ListingOk(s, id); }
  }

  lemma UnlistFlights(w: World, s: System, k: nat, choice: Choice)
    requires FlightsOk(w, s) && k < |s.clients| && s.clients[k].Built?
    ensures FlightsOk(w, Next(w, s, k, choice))
  {
    var t := Next(w, s, k, choice);
    assert FlightOk(s, k, s.clients[k]);
    forall j | 0 <= j < |t.clients| ensures FlightOk(t, j, t.clients[j]) { assert FlightOk(s, j, s.clients[j]); }
    forall ch | 0 <= ch < |t.channels| ensures ChannelOk(w, t, ch) { assert ChannelOk(w, s, ch); }
    forall id <- t.builds ensures ListingOk(t, id) { assert ListingOk(s, id); }
  }

  lemma PublishFlights(w: World, s: System, k: nat, choice: Choice)
    requires FlightsOk(w, s) && k < |s.clients| && s.clients[k].Unlisted? && ClientOk(w, s, k, s.clients[k])
    ensures FlightsOk(w, Next(w, s, k, choice))
  {
    var t := Next(w, s, k, choice);
    var ch := s.clients[k].sender;
    assert FlightOk(s, k, s.clients[k]);
    forall j | 0 <= j < |t.clients| ensures FlightOk(t, j, t.clients[j]) {
      assert FlightOk(s, j, s.clients[j]);
      assert t.channels == s.channels[ch := t.channels[ch]];
    }
    forall c | 0 <= c < |t.channels| ensures ChannelOk(w, t, c) { assert ChannelOk(w, s, c); }
    forall id <- t.builds ensures ListingOk(t, id) { assert ListingOk(s, id); }
  }

  lemma BuildCaches(w: World, s: System, k: nat, choice: Choice)
    requires CachesOk(w, s) && k < |s.clients| && s.clients[k].Building? && CanStep(w, s, k, choice)
    requires ClientOk(w, s, k, s.clients[k])
    ensures CachesOk(w, Next(w, s, k, choice))
  {
    FilingATapeIsPure(w, s, s.clients[k].job.x.id, choice.tapes);
  }

  lemma BuildKeepsInv(w: World, s: System, k: nat, choice: Choice)
    requires Inv(w, s) && k < |s.clients| && CanStep(w, s, k, choice) && s.clients[k].Building?
    ensures Inv(w, Next(w, s, k, choice))
  {
    hide StoreOk, FiledOk, FlightsOk;
    var t := Next(w, s, k, choice);
    assert ClientOk(w, s, k, s.clients[k]);
    OwnerClient(w, s, k, s.clients[k].job, s.clients[k].owned, 0, choice);
    BuildFlights(w, s, k, choice);
    BuildCaches(w, s, k, choice);
    hide FlightsOk, ClientOk, CanStep, CachesOk, Filed;
    HistoryKept(w, s, t, k);
  }

  lemma UnlistKeepsInv(w: World, s: System, k: nat, choice: Choice)
    requires Inv(w, s) && k < |s.clients| && s.clients[k].Built?
    ensures Inv(w, Next(w, s, k, choice))
  {
    hide StoreOk, FiledOk, CachesOk;
    var t := Next(w, s, k, choice);
    assert ClientOk(w, s, k, s.clients[k]);
    OwnerClient(w, s, k, s.clients[k].job, s.clients[k].owned, 0, choice);
    UnlistFlights(w, s, k, choice);
    UnlistFrame(s, k, s.clients[k].job, s.clients[k].owned, s.clients[k].result);
    hide FlightsOk, ClientOk, Unlist;
    CachesShrink(w, s, t);
    HistoryKept(w, s, t, k);
  }

  lemma PublishKeepsInv(w: World, s: System, k: nat, choice: Choice)
    requires Inv(w, s) && k < |s.clients| && s.clients[k].Unlisted?
    ensures Inv(w, Next(w, s, k, choice))
  {
    hide StoreOk, FiledOk, CachesOk;
    var t := Next(w, s, k, choice);
    assert ClientOk(w, s, k, s.clients[k]);
    assert FlightOk(s, k, s.clients[k]);
    OwnerClient(w, s, k, s.clients[k].job, None, s.clients[k].sender, choice);
    PublishFlights(w, s, k, choice);
    PublishFrame(s, k, s.clients[k].job, s.clients[k].sender, s.clients[k].result);
    hide FlightsOk, ClientOk, Publish;
    CachesShrink(w, s, t);
    HistoryKept(w, s, t, k);
  }

  // ---- the snapshot cache and the commit

  lemma CacheSnapshotKeepsInv(w: World, s: System, k: nat, choice: Choice)
    requires Inv(w, s) && k < |s.clients| && s.clients[k].CacheSnapshot?
    ensures Inv(w, Next(w, s, k, choice))
  {
    hide StoreOk, FiledOk, FlightsOk, Lawful, IsPure;
    var t := Next(w, s, k, choice);
    assert ClientOk(w, s, k, s.clients[k]);
    HistoryKept(w, s, t, k);
    FlightsKept(w, s, t, k);
  }

  /** The document an advance saves, and the three ways saving can end. */
  lemma VerdictIs(w: World, s: System, x: Simulation)
    requires StoreOk(w, s) && JobOk(w, s, x)
    ensures Advanced(x) ==
            Ok(x.(cursor := x.cursor + 1, version := x.version + 1, state := StateAt(x.cursor + 1, x.total)))
    ensures Verdict(w, s, x) ==
            if x.id !in s.store then Err(NotFound)
            else if |Log(s, x.id)| > x.cursor then Err(Conflict)
            else Advanced(x)
    ensures |Log(s, x.id)| >= x.cursor
  {
    AdvanceIsLawful(w, x);
    if x.id in s.store { assert DocumentOk(w, s, x.id); }
  }

  /** An advance commits exactly when nobody committed since it read, and
      conflicts exactly when somebody did. */
  lemma CommitOutcome(w: World, s: System, k: nat, choice: Choice)
    requires Inv(w, s) && k < |s.clients| && s.clients[k].Commit?
    ensures var x := s.clients[k].job.x;
            var t := Next(w, s, k, choice);
            && (x.id !in s.store <==> t.clients[k] == Done(Failed(NotFound)))
            && (x.id in s.store && |Log(s, x.id)| > x.cursor <==> t.clients[k] == Done(Failed(Conflict)))
            && (x.id in s.store && |Log(s, x.id)| == x.cursor <==> t.clients[k].Committed?)
            && (t.clients[k].Committed? ==>
                  && t.store == s.store[x.id := Advanced(x).value]
                  && t.served == s.served[x.id := Log(s, x.id) + [Entry(k, s.clients[k].snap)]])
            && (!t.clients[k].Committed? ==> t == Move(s, k, t.clients[k]))
  {
    assert ClientOk(w, s, k, s.clients[k]);
    VerdictIs(w, s, s.clients[k].job.x);
    hide Inv, Verdict, JobOk, IsPure, Advanced;
  }

  /** The state a commit leaves. */
  ghost predicate Commits(w: World, s: System, t: System, k: nat) {
    && k < |s.clients| && s.clients[k].Commit?
    && var x := s.clients[k].job.x;
       && JobOk(w, s, x)
       && x.id in s.store && |Log(s, x.id)| == x.cursor
       && IsPure(w, x.params, x.cursor, s.clients[k].snap)
       && Advanced(x) ==
         Ok(x.(cursor := x.cursor + 1, version := x.version + 1, state := StateAt(x.cursor + 1, x.total)))
       && t == Move(s, k, Committed(Advanced(x).value, s.clients[k].snap)).(
                 store := s.store[x.id := Advanced(x).value],
                 served := s.served[x.id := Log(s, x.id) + [Entry(k, s.clients[k].snap)]])
  }

  lemma SaveCommits(w: World, s: System, k: nat, job: Job, snap: Snap)
    requires k < |s.clients| && s.clients[k] == Commit(job, snap) && Verdict(w, s, job.x).Ok?
    requires JobOk(w, s, job.x) && IsPure(w, job.x.params, job.x.cursor, snap)
    requires StoreOk(w, s)
    ensures Commits(w, s, Save(w, s, k, job, snap), k)
  {
    VerdictIs(w, s, job.x);
    hide StoreOk, Verdict, JobOk, IsPure, Advanced;
  }

  lemma CommitCases(w: World, s: System, k: nat, choice: Choice)
    requires Inv(w, s) && k < |s.clients| && s.clients[k].Commit?
    ensures var t := Next(w, s, k, choice);
            if t.clients[k].Committed? then Commits(w, s, t, k)
            else t.clients[k].Done? && OutcomeOk(w, s, k, t.clients[k].outcome) && t == Move(s, k, t.clients[k])
  {
    var job, snap := s.clients[k].job, s.clients[k].snap;
    assert ClientOk(w, s, k, s.clients[k]);
    VerdictIs(w, s, job.x);
    if Verdict(w, s, job.x).Ok? {
      SaveCommits(w, s, k, job, snap);
    }
    hide Inv, Verdict, Commits, ClientOk;
  }

  lemma LogElsewhere(w: World, s: System, t: System, k: nat, i: Id)
    requires LogOk(w, s, i)
    requires k < |s.clients| && OnlyMoves(s, t, k)
    requires Past(t.clients[k])
    requires i in t.served && t.served[i] == s.served[i] && t.created == s.created
    ensures LogOk(w, t, i)
  {
  }

  lemma LogExtended(w: World, s: System, t: System, k: nat, id: Id)
    requires LogOk(w, s, id) && k < |s.clients| && OnlyMoves(s, t, k) && Past(t.clients[k]) && t.created == s.created
    requires s.clients[k].Commit? && IsPure(w, s.created[id], |s.served[id]|, s.clients[k].snap)
    requires |s.served[id]| < w.steps(s.created[id])
    requires id in t.served && t.served[id] == s.served[id] + [Entry(k, s.clients[k].snap)]
    ensures LogOk(w, t, id)
  {
    hide IsPure;
  }

  lemma CommitLogs(w: World, s: System, t: System, k: nat)
    requires StoreOk(w, s) && Commits(w, s, t, k)
    ensures forall i <- t.created :: LogOk(w, t, i)
  {
    var x := s.clients[k].job.x;
    assert LogOk(w, s, x.id);
    hide LogOk, Advanced, IsPure;
    LogExtended(w, s, t, k, x.id);
    forall i <- t.created ensures LogOk(w, t, i) {
      if i != x.id { LogElsewhere(w, s, t, k, i); }
    }
  }

  lemma CommitStore(w: World, s: System, t: System, k: nat)
    requires StoreOk(w, s) && Commits(w, s, t, k)
    ensures StoreOk(w, t)
  {
    CommitLogs(w, s, t, k);
    hide LogOk;
    var id := s.clients[k].job.x.id;
    forall i <- t.store ensures DocumentOk(w, t, i) {
      if i != id { assert DocumentOk(w, s, i); }
    }
  }

  lemma CommitClients(w: World, s: System, t: System, k: nat)
    requires Inv(w, s) && Commits(w, s, t, k)
    ensures ClientsOk(w, t)
  {
    hide StoreOk, FiledOk, FlightsOk, CachesOk;
    assert Grows(s, t);
    assert ClientOk(w, t, k, t.clients[k]);
    ClientsSurvive(w, s, t, k);
  }

  lemma CommitFlights(w: World, s: System, t: System, k: nat)
    requires FlightsOk(w, s) && Commits(w, s, t, k)
    ensures FlightsOk(w, t)
  {
    hide JobOk, IsPure, Advanced;
    FlightsKept(w, s, t, k);
  }

  lemma CommitFiled(w: World, s: System, t: System, k: nat)
    requires StoreOk(w, s) && FiledOk(s) && Commits(w, s, t, k)
    ensures FiledOk(t)
  {
    hide JobOk, IsPure, Advanced, DocumentOk;
    forall i | 0 <= i < |t.filed|
      ensures && t.filed[i].1 < |Log(t, t.filed[i].0)|
              && Log(t, t.filed[i].0)[t.filed[i].1] == Log(s, t.filed[i].0)[t.filed[i].1]
              && Log(t, t.filed[i].0)[t.filed[i].1].winner != k
    {
      assert t.filed[i].1 < |Log(s, t.filed[i].0)|;
      assert LogOk(w, s, t.filed[i].0);
    }
  }

  lemma CommittedKeepsInv(w: World, s: System, t: System, k: nat)
    requires Inv(w, s) && Commits(w, s, t, k)
    ensures Inv(w, t)
  {
    CommitStore(w, s, t, k);
    CommitClients(w, s, t, k);
    CommitFlights(w, s, t, k);
    CommitFiled(w, s, t, k);
    hide StoreOk, ClientsOk, FlightsOk, FiledOk, JobOk, Advanced, IsPure;
    CachesShrink(w, s, t);
  }

  lemma CommitKeepsInv(w: World, s: System, k: nat, choice: Choice)
    requires Inv(w, s) && k < |s.clients| && s.clients[k].Commit?
    ensures Inv(w, Next(w, s, k, choice))
  {
    var t := Next(w, s, k, choice);
    CommitCases(w, s, k, choice);
    hide Next, Inv, Commits, OutcomeOk;
    if t.clients[k].Committed? {
      CommittedKeepsInv(w, s, t, k);
    } else {
      MoveKeepsInv(w, s, k, t.clients[k]);
    }
  }

  /** A commit is filed at most once: the request that made it files it as it
      leaves `Committed`. */
  lemma FileFiles(w: World, s: System, k: nat, choice: Choice)
    requires StoreOk(w, s) && FiledOk(s) && k < |s.clients| && s.clients[k].Committed?
    requires ClientOk(w, s, k, s.clients[k])
    ensures FiledOk(Next(w, s, k, choice))
  {
    var t := Next(w, s, k, choice);
    forall id ensures Log(t, id) == Log(s, id) {}
    var key := (s.clients[k].x.id, s.clients[k].x.cursor - 1);
    assert Log(s, key.0)[key.1].winner == k;
    assert key !in s.filed;
  }

  lemma FileFrame(w: World, s: System, k: nat, choice: Choice)
    requires k < |s.clients| && s.clients[k].Committed? && ClientOk(w, s, k, s.clients[k])
    ensures var t := Next(w, s, k, choice);
            && Reseats(s, t, k)
            && t == Move(s, k, t.clients[k]).(filed := t.filed)
            && ClientOk(w, s, k, t.clients[k])
            && Carries(t.clients[k]).None? && !t.clients[k].Waiting?
  {
  }

  lemma FileKeepsInv(w: World, s: System, k: nat, choice: Choice)
    requires Inv(w, s) && k < |s.clients| && s.clients[k].Committed?
    ensures Inv(w, Next(w, s, k, choice))
  {
    hide CachesOk, FlightsOk;
    var t := Next(w, s, k, choice);
    assert ClientOk(w, s, k, s.clients[k]);
    FileFiles(w, s, k, choice);
    FileFrame(w, s, k, choice);
    hide FiledOk, Next, ClientOk;
    CachesShrink(w, s, t);
    StoreKept(w, s, t, k);
    FlightsKept(w, s, t, k);
    ClientSurvives(w, s, t, k, t.clients[k]);
    ClientsSurvive(w, s, t, k);
  }

  // ---- evictions and deletions

  lemma EvictKeepsInv(w: World, s: System, k: nat, choice: Choice)
    requires Inv(w, s) && k < |s.clients|
    requires s.clients[k].EvictTape? || s.clients[k].EvictSnapshots? || s.clients[k].Remove? || s.clients[k].Sweep?
    ensures Inv(w, Next(w, s, k, choice))
  {
    hide StoreOk, FiledOk, FlightsOk, CachesOk, AnswerOk;
    var t := Next(w, s, k, choice);
    assert ClientOk(w, s, k, s.clients[k]);
    var o := EvictFrame(w, s, k, choice);
    assert ClientOk(w, s, k, t.clients[k]) by { hide Next, AnswerOk; }
    hide Next, ClientOk;
    CachesShrink(w, s, t);
    HistoryKept(w, s, t, k);
    FlightsKept(w, s, t, k);
  }

  // ---- every action, every run

  lemma StepKeepsInv(w: World, s: System, k: nat, choice: Choice)
    requires Inv(w, s) && k < |s.clients| && CanStep(w, s, k, choice)
    ensures Inv(w, Next(w, s, k, choice))
  {
    hide Inv, CanStep, ReadSnapshot, ReadTape, PriceSnapshot;
    match s.clients[k]
    case Fetch(_, _) => FetchKeepsInv(w, s, k, choice);
    case LookSnapshot(job) => ReadSnapshotKeepsInv(w, s, k, job);
    case LookTape(job) => ReadTapeKeepsInv(w, s, k, job);
    case Claim(_) => ClaimKeepsInv(w, s, k, choice);
    case Waiting(_, _) => ReceiveKeepsInv(w, s, k, choice);
    case Building(_, _) => BuildKeepsInv(w, s, k, choice);
    case Built(_, _, _) => UnlistKeepsInv(w, s, k, choice);
    case Unlisted(_, _, _) => PublishKeepsInv(w, s, k, choice);
    case Price(job, tape) => PriceKeepsInv(w, s, k, job, tape);
    case CacheSnapshot(_, _) => CacheSnapshotKeepsInv(w, s, k, choice);
    case Commit(_, _) => CommitKeepsInv(w, s, k, choice);
    case Committed(_, _) => FileKeepsInv(w, s, k, choice);
    case EvictTape(_, _) => EvictKeepsInv(w, s, k, choice);
    case EvictSnapshots(_, _) => EvictKeepsInv(w, s, k, choice);
    case Remove(_) => EvictKeepsInv(w, s, k, choice);
    case Sweep => EvictKeepsInv(w, s, k, choice);
    case Done(_) =>
    case Dropped =>
  }
}
