/** The theorems about whole runs of the v2 manager. */
module SimulationRuns {
  import opened Results
  import opened SimulationModel
  import opened SimulationProtocol
  import opened SimulationSafety

  // ---- what arrives, what is lost

  lemma FlightUnmoved(s: System, t: System, k: nat, c: Client)
    requires FlightOk(s, k, c) && t.builds == s.builds && t.channels == s.channels
    ensures FlightOk(t, k, c)
  {
  }

  lemma CreateStore(w: World, s: System, id: Id, params: Params)
    requires StoreOk(w, s) && id !in s.created && New(w, id, params).Validate(w)
    ensures StoreOk(w, Apply(w, s, Create(id, params)))
  {
    var t := Apply(w, s, Create(id, params));
    forall i <- t.created ensures LogOk(w, t, i) {
      if i != id { assert LogOk(w, s, i); }
    }
    forall i <- t.store ensures DocumentOk(w, t, i) {
      if i != id { assert DocumentOk(w, s, i); }
    }
  }

  lemma CreateRest(w: World, s: System, t: System, id: Id)
    requires Inv(w, s) && id !in s.created && id in t.created && id in t.served
    requires t.created == s.created[id := t.created[id]] && t.served == s.served[id := []]
    requires t.clients == s.clients && t.builds == s.builds && t.channels == s.channels && t.filed == s.filed
    ensures ClientsOk(w, t) && FlightsOk(w, t) && FiledOk(t)
  {
    assert Grows(s, t);
    forall i | 0 <= i < |s.filed| ensures Log(t, s.filed[i].0) == Log(s, s.filed[i].0) { }
    assert FiledOk(t);
    hide StoreOk, CachesOk, FiledOk, ClientOk, FlightOk, Grows;
    forall k | 0 <= k < |t.clients| ensures ClientOk(w, t, k, t.clients[k]) {
      ClientSurvives(w, s, t, k, s.clients[k]);
    }
    forall k | 0 <= k < |t.clients| ensures FlightOk(t, k, t.clients[k]) { FlightUnmoved(s, t, k, s.clients[k]); }
    forall ch | 0 <= ch < |t.channels| ensures ChannelOk(w, t, ch) { assert ChannelOk(w, s, ch); }
    forall i <- t.builds ensures ListingOk(t, i) { assert ListingOk(s, i); }
  }

  lemma CreateKeepsInv(w: World, s: System, id: Id, params: Params)
    requires Inv(w, s) && id !in s.created
    ensures Inv(w, Apply(w, s, Create(id, params)))
  {
    if New(w, id, params).Validate(w) {
      CreateStore(w, s, id, params);
      CreateRest(w, s, Apply(w, s, Create(id, params)), id);
      CachesShrink(w, s, Apply(w, s, Create(id, params)));
    }
  }

  lemma ArriveHistory(w: World, s: System, request: Client)
    requires StoreOk(w, s) && FiledOk(s) && IsRequest(request)
    ensures var t := Apply(w, s, Arrive(request)); StoreOk(w, t) && FiledOk(t)
  {
    var t := Apply(w, s, Arrive(request));
    forall i <- t.created ensures LogOk(w, t, i) { assert LogOk(w, s, i); }
    forall i <- t.store ensures DocumentOk(w, t, i) { assert DocumentOk(w, s, i); }
    forall id ensures Log(t, id) == Log(s, id) {}
  }

  lemma ArriveClients(w: World, s: System, request: Client)
    requires ClientsOk(w, s) && FlightsOk(w, s) && IsRequest(request)
    ensures var t := Apply(w, s, Arrive(request)); ClientsOk(w, t) && FlightsOk(w, t)
  {
    var t := Apply(w, s, Arrive(request));
    assert Grows(s, t);
    assert ClientOk(w, t, |s.clients|, request) && FlightOk(t, |s.clients|, request);
    hide ClientOk, FlightOk, Grows;
    forall k | 0 <= k < |t.clients| ensures ClientOk(w, t, k, t.clients[k]) {
      if k < |s.clients| { ClientSurvives(w, s, t, k, s.clients[k]); }
    }
    forall k | 0 <= k < |t.clients| ensures FlightOk(t, k, t.clients[k]) {
      if k < |s.clients| { FlightUnmoved(s, t, k, s.clients[k]); }
    }
    forall ch | 0 <= ch < |t.channels| ensures ChannelOk(w, t, ch) { assert ChannelOk(w, s, ch); }
    forall i <- t.builds ensures ListingOk(t, i) { assert ListingOk(s, i); }
  }

  lemma ArriveKeepsInv(w: World, s: System, request: Client)
    requires Inv(w, s) && IsRequest(request)
    ensures Inv(w, Apply(w, s, Arrive(request)))
  {
    hide StoreOk, FiledOk, ClientsOk, FlightsOk;
    ArriveHistory(w, s, request);
    ArriveClients(w, s, request);
  }

  lemma ChannelOrphaned(w: World, s: System, t: System, k: nat, ch: nat)
    requires ch < |s.channels| && ChannelOk(w, s, ch) && k < |s.clients| && Droppable(s.clients[k])
    requires FlightOk(s, k, s.clients[k])
    requires t.clients == s.clients[k := Dropped] && t.builds == s.builds && t.channels == s.channels
    requires t.created == s.created
    ensures ChannelOk(w, t, ch)
  {
  }

  /** A dropped owner leaves its channel listed, with nobody to publish on it. */
  lemma DropFlights(w: World, s: System, t: System, k: nat)
    requires FlightsOk(w, s) && k < |s.clients| && Droppable(s.clients[k])
    requires t.clients == s.clients[k := Dropped] && t.builds == s.builds && t.channels == s.channels
    requires t.created == s.created
    ensures FlightsOk(w, t)
  {
    assert FlightOk(t, k, Dropped);
    hide FlightOk, ChannelOk, Droppable;
    forall j | 0 <= j < |t.clients| ensures FlightOk(t, j, t.clients[j]) {
      if j != k { FlightUnmoved(s, t, j, s.clients[j]); }
    }
    forall ch | 0 <= ch < |t.channels| ensures ChannelOk(w, t, ch) { ChannelOrphaned(w, s, t, k, ch); }
    forall i <- t.builds ensures ListingOk(t, i) { assert ListingOk(s, i); }
  }

  lemma DropFrame(w: World, s: System, k: nat)
    requires k < |s.clients| && ClientOk(w, s, k, s.clients[k])
    ensures var t := Apply(w, s, Drop(k));
            && Frame(s, t, k)
            && t.clients == s.clients[k := Dropped] && t.builds == s.builds && t.channels == s.channels
            && t.tapes == s.tapes && t.snaps == s.snaps
            && (forall i | 0 <= i < |t.detached| :: t.detached[i] in s.detached || t.detached[i] in s.created)
  {
  }

  lemma DropKeepsInv(w: World, s: System, k: nat)
    requires Inv(w, s) && k < |s.clients| && Droppable(s.clients[k])
    ensures Inv(w, Apply(w, s, Drop(k)))
  {
    assert ClientOk(w, s, k, s.clients[k]);
    DropFrame(w, s, k);
    DropFlights(w, s, Apply(w, s, Drop(k)), k);
    hide FlightsOk, Apply, Droppable;
    HistoryKept(w, s, Apply(w, s, Drop(k)), k);
  }

  lemma FinishDetachedKeepsInv(w: World, s: System, i: nat, tapes: set<Id>)
    requires Inv(w, s) && Enabled(w, s, FinishDetached(i, tapes))
    ensures Inv(w, Apply(w, s, FinishDetached(i, tapes)))
  {
    hide StoreOk, ClientsOk, FiledOk, FlightsOk;
    var t := Apply(w, s, FinishDetached(i, tapes));
    FilingATapeIsPure(w, s, s.detached[i], tapes);
    UnchangedKeepsInv(w, s, t);
  }

  lemma StoreUnchanged(w: World, s: System, t: System)
    requires StoreOk(w, s) && t.created == s.created && t.served == s.served && t.clients == s.clients
    requires Within(t.store, s.store)
    ensures StoreOk(w, t)
  {
    forall i <- t.created ensures LogOk(w, t, i) { assert LogOk(w, s, i); }
    forall i <- t.store ensures DocumentOk(w, t, i) { assert DocumentOk(w, s, i); }
  }

  lemma ClientsUnchanged(w: World, s: System, t: System)
    requires ClientsOk(w, s) && t.created == s.created && t.served == s.served && t.clients == s.clients
    ensures ClientsOk(w, t)
  {
    assert Grows(s, t);
    hide ClientOk, Grows;
    forall k | 0 <= k < |t.clients| ensures ClientOk(w, t, k, t.clients[k]) {
      ClientSurvives(w, s, t, k, s.clients[k]);
    }
  }

  /** Only the caches, the store or the detached builds changed. */
  lemma UnchangedKeepsInv(w: World, s: System, t: System)
    requires Inv(w, s) && CachesOk(w, t)
    requires t.created == s.created && t.served == s.served && t.filed == s.filed && t.clients == s.clients
    requires t.builds == s.builds && t.channels == s.channels && Within(t.store, s.store)
    ensures Inv(w, t)
  {
    StoreUnchanged(w, s, t);
    ClientsUnchanged(w, s, t);
    hide StoreOk, CachesOk, ClientsOk, FlightOk;
    forall id ensures Log(t, id) == Log(s, id) {}
    assert FiledOk(t);
    forall k | 0 <= k < |t.clients| ensures FlightOk(t, k, t.clients[k]) { FlightUnmoved(s, t, k, s.clients[k]); }
    forall ch | 0 <= ch < |t.channels| ensures ChannelOk(w, t, ch) { assert ChannelOk(w, s, ch); }
    forall i <- t.builds ensures ListingOk(t, i) { assert ListingOk(s, i); }
  }

  lemma LossKeepsInv(w: World, s: System, a: Action)
    requires Inv(w, s) && (a.LoseTapes? || a.LoseSnapshots? || a.Expire?)
    ensures Inv(w, Apply(w, s, a))
  {
    hide StoreOk, CachesOk, ClientsOk, FiledOk, FlightsOk;
    CachesShrink(w, s, Apply(w, s, a));
    UnchangedKeepsInv(w, s, Apply(w, s, a));
  }

  lemma ActionKeepsInv(w: World, s: System, a: Action)
    requires Inv(w, s) && Enabled(w, s, a)
    ensures Inv(w, Apply(w, s, a))
  {
    hide Inv, CanStep, Next;
    match a
    case Create(id, params) => CreateKeepsInv(w, s, id, params);
    case Arrive(request) => ArriveKeepsInv(w, s, request);
    case Step(k, choice) => StepKeepsInv(w, s, k, choice);
    case Drop(k) => DropKeepsInv(w, s, k);
    case FinishDetached(i, tapes) => FinishDetachedKeepsInv(w, s, i, tapes);
    case LoseTapes(_) => LossKeepsInv(w, s, a);
    case LoseSnapshots(_) => LossKeepsInv(w, s, a);
    case Expire(_) => LossKeepsInv(w, s, a);
  }

  /** Every state of every interleaving meets the invariant. */
  lemma {:induction false} RunKeepsInv(w: World, s: System, actions: seq<Action>)
    requires Inv(w, s)
    ensures After(w, s, actions).Some? ==> Inv(w, After(w, s, actions).value)
    decreases |actions|
  {
    if actions != [] && Enabled(w, s, actions[0]) {
      ActionKeepsInv(w, s, actions[0]);
      RunKeepsInv(w, Apply(w, s, actions[0]), actions[1..]);
    }
  }

  ghost predicate Reachable(w: World, s: System) {
    exists actions :: After(w, Initial(), actions) == Some(s)
  }

  lemma ReachableIsLawful(w: World, s: System)
    requires Reachable(w, s)
    ensures Inv(w, s)
  {
    var actions :| After(w, Initial(), actions) == Some(s);
    assert Inv(w, Initial());
    RunKeepsInv(w, Initial(), actions);
  }

  // ---- serving

  /** The advances committed on a simulation serve steps 0, 1, 2, ... once each,
      never past the horizon, and the stored document counts them. */
  lemma AdvancesServeEachStepOnce(w: World, s: System, id: Id)
    requires Reachable(w, s) && id in s.created
    ensures id in s.served && |s.served[id]| <= w.steps(s.created[id])
    ensures forall step | 0 <= step < |s.served[id]| :: IsPure(w, s.created[id], step, s.served[id][step].snap)
    ensures id in s.store ==>
              var x := s.store[id];
              && x.id == id && x.params == s.created[id]
              && x.version == x.cursor == |s.served[id]|
              && x.state == StateAt(x.cursor, w.steps(x.params))
              && x.Validate(w)
  {
    ReachableIsLawful(w, s);
    assert LogOk(w, s, id);
    if id in s.store { assert DocumentOk(w, s, id); }
  }

  predicate Honest(w: World, s: System, o: Outcome) {
    match o
    case Answer(x, step, snap) =>
      x.id in s.created && step < w.steps(s.created[x.id]) && IsPure(w, s.created[x.id], step, snap)
    case Failed(failure) =>
      !failure.CursorOverflow? && !failure.VersionOverflow? && !failure.InvalidState? && !failure.Invalid?
    case _ => true
  }

  lemma AnswerIsUncached(w: World, s: System, k: nat, o: Outcome)
    requires Inv(w, s) && OutcomeOk(w, s, k, o)
    ensures Honest(w, s, o)
  {
    hide Inv, IsPure;
  }

  /** Whatever the interleaving, the evictions and the builds that file late, an
      answer holds the snapshot an uncached read would have built, and a failed
      request met neither an overflow nor a document it should not have. */
  lemma AnswersAreUncached(w: World, s: System, k: nat)
    requires Reachable(w, s) && k < |s.clients| && s.clients[k].Done?
    ensures Honest(w, s, s.clients[k].outcome)
  {
    ReachableIsLawful(w, s);
    assert ClientOk(w, s, k, s.clients[k]);
    AnswerIsUncached(w, s, k, s.clients[k].outcome);
  }

  /** An advance that answered: the document it returns is one past its step. */
  predicate Advances(c: Client, id: Id, step: nat) {
    c.Done? && c.outcome.Answer? && c.outcome.x.id == id && c.outcome.step == step && c.outcome.x.cursor == step + 1
  }

  lemma AnswerOwnsEntry(w: World, s: System, k: nat, o: Outcome)
    requires ClientsOk(w, s) && k < |s.clients| && s.clients[k] == Done(o) && o.Answer? && o.x.cursor == o.step + 1
    ensures o.x.id in s.served && o.step < |s.served[o.x.id]| && s.served[o.x.id][o.step] == Entry(k, o.snap)
  {
    assert ClientOk(w, s, k, s.clients[k]);
  }

  /** No two advances on one simulation are answered with the same step. */
  lemma AdvancesAnswerDistinctSteps(w: World, s: System, j: nat, k: nat, id: Id, step: nat)
    requires Reachable(w, s) && j < |s.clients| && k < |s.clients|
    requires Advances(s.clients[j], id, step) && Advances(s.clients[k], id, step)
    ensures j == k
    ensures id in s.served && step < |s.served[id]| && s.served[id][step] == Entry(k, s.clients[k].outcome.snap)
  {
    ReachableIsLawful(w, s);
    hide FlightsOk, FiledOk, StoreOk, CachesOk, Lawful, IsPure;
    AnswerOwnsEntry(w, s, j, s.clients[j].outcome);
    AnswerOwnsEntry(w, s, k, s.clients[k].outcome);
  }

  /** Filing follows a commit, once. */
  lemma FiledStepsWereServed(w: World, s: System)
    requires Reachable(w, s)
    ensures forall i | 0 <= i < |s.filed| :: s.filed[i].0 in s.served && s.filed[i].1 < |s.served[s.filed[i].0]|
    ensures forall i, j | 0 <= i < j < |s.filed| :: s.filed[i] != s.filed[j]
  {
    ReachableIsLawful(w, s);
  }

  predicate Builds(c: Client, id: Id) {
    (c.Building? || c.Built?) && c.job.x.id == id
  }

  // ---- delivery

  /** How many of its own steps the owner still needs before it publishes. */
  function Left(c: Client): nat {
    match c
    case Building(_, _) => 3
    case Built(_, _, _) => 2
    case Unlisted(_, _, _) => 1
    case _ => 0
  }

  ghost predicate Silent(s: System, ch: nat) {
    ch < |s.channels| && s.channels[ch].message.None?
  }

  /** A channel nobody will ever publish on: its owner was dropped. */
  ghost predicate Orphaned(s: System, ch: nat) {
    Silent(s, ch) && s.channels[ch].owner < |s.clients| && s.clients[s.channels[ch].owner].Dropped?
  }

  ghost predicate Local(s: System, t: System, k: nat)
    requires k < |s.clients|
  {
    && Stays(s, t, k)
    && |s.channels| <= |t.channels|
    && (forall ch | 0 <= ch < |s.channels| ::
          && t.channels[ch].owner == s.channels[ch].owner
          && (t.channels[ch] == s.channels[ch] || (s.clients[k].Unlisted? && s.clients[k].sender == ch)))
    && (forall id <- s.builds ::
          || (id in t.builds && t.builds[id] == s.builds[id])
          || (s.clients[k].Built? && s.clients[k].job.x.id == id))
  }

  lemma StepIsQuiet(w: World, s: System, k: nat, choice: Choice)
    requires k < |s.clients| && !s.clients[k].Claim? && !s.clients[k].Unlisted?
    requires !s.clients[k].Built?
    ensures Quiet(s, Next(w, s, k, choice), k)
  {
    hide Load, ReadSnapshot, ReadTape, Receive, Build, PriceSnapshot, Store, Save, File, DropTape, DropSnapshots,
      Delete, Reap;
  }

  /** One client's step moves that client alone, and changes no open channel
      but the one it was about to publish on. */
  lemma StepIsLocal(w: World, s: System, k: nat, choice: Choice)
    requires k < |s.clients|
    ensures Local(s, Next(w, s, k, choice), k)
  {
    hide Join, Publish, Load, ReadSnapshot, ReadTape, Receive, Build, Unlist, PriceSnapshot, Store, Save, File,
      DropTape, DropSnapshots, Delete, Reap;
    if s.clients[k].Claim? || s.clients[k].Unlisted? || s.clients[k].Built? {
    } else {
      hide Next;
      StepIsQuiet(w, s, k, choice);
    }
  }

  /** Where a live owner stands. */
  lemma OwnerStands(w: World, s: System, ch: nat)
    requires Inv(w, s) && Silent(s, ch) && !Orphaned(s, ch)
    ensures var k := s.channels[ch].owner;
            && k < |s.clients| && Left(s.clients[k]) > 0
            && s.channels[ch].id in s.created && s.channels[ch].id == s.clients[k].job.x.id
            && s.created[s.channels[ch].id] == s.clients[k].job.x.params
            && match s.clients[k]
               case Building(job, owned) => owned == Some(ch)
               case Built(job, owned, result) =>
                 owned == Some(ch) && Listed(s, job.x.id, ch) && result == w.build(job.x.params)
               case Unlisted(job, sender, result) => sender == ch && result == w.build(job.x.params)
               case _ => true
  {
    assert ChannelOk(w, s, ch);
    var k := s.channels[ch].owner;
    assert FlightOk(s, k, s.clients[k]) && ClientOk(w, s, k, s.clients[k]);
    hide Lawful, FiledOk, StoreOk, CachesOk;
  }

  /** The owner of `ch` is one step nearer publishing in `t` than in `s`, or
      has just published. */
  ghost predicate Closer(w: World, s: System, t: System, ch: nat) {
    && ch < |s.channels| && ch < |t.channels|
    && var k := s.channels[ch].owner;
       && k < |s.clients| && k < |t.clients| && Left(s.clients[k]) > 0 && s.channels[ch].id in s.created
       && if Left(s.clients[k]) == 1
          then t.channels[ch] == s.channels[ch].(message := Some(w.build(s.created[s.channels[ch].id])))
          else t.channels[ch] == s.channels[ch] && Left(t.clients[k]) == Left(s.clients[k]) - 1
  }

  lemma BuildIsCloser(w: World, s: System, k: nat, ch: nat, job: Job, displaced: set<Id>)
    requires k < |s.clients| && ch < |s.channels| && s.clients[k] == Building(job, Some(ch))
    requires s.channels[ch].owner == k && s.channels[ch].id in s.created
    ensures Closer(w, s, Build(w, s, k, job, Some(ch), displaced), ch)
  {
    hide Filed;
  }

  lemma UnlistIsCloser(w: World, s: System, k: nat, ch: nat, job: Job, result: Result<Tape, string>)
    requires k < |s.clients| && ch < |s.channels| && s.clients[k] == Built(job, Some(ch), result)
    requires s.channels[ch].owner == k && s.channels[ch].id in s.created && Listed(s, job.x.id, ch)
    ensures Closer(w, s, Unlist(s, k, job, Some(ch), result), ch)
  {
  }

  lemma PublishIsCloser(w: World, s: System, k: nat, ch: nat, job: Job, result: Result<Tape, string>)
    requires k < |s.clients| && ch < |s.channels| && s.clients[k] == Unlisted(job, ch, result)
    requires s.channels[ch].owner == k && s.channels[ch].id in s.created
    requires result == w.build(s.created[s.channels[ch].id])
    ensures Closer(w, s, Publish(s, k, job, ch, result), ch)
  {
  }

  /** Every step of a live owner brings its publication one step closer. */
  lemma OwnerProgress(w: World, s: System, ch: nat, choice: Choice)
    requires Inv(w, s) && Silent(s, ch) && !Orphaned(s, ch)
    ensures s.channels[ch].owner < |s.clients| && Closer(w, s, Next(w, s, s.channels[ch].owner, choice), ch)
  {
    OwnerStands(w, s, ch);
    hide Inv, Orphaned, Closer, Build, Unlist, Publish;
    var k := s.channels[ch].owner;
    match s.clients[k]
    case Building(job, _) => BuildIsCloser(w, s, k, ch, job, choice.tapes);
    case Built(job, _, result) => UnlistIsCloser(w, s, k, ch, job, result);
    case Unlisted(job, _, result) => PublishIsCloser(w, s, k, ch, job, result);
    case _ =>
  }

  lemma OwnerActs(w: World, s: System, ch: nat, a: Action)
    requires Inv(w, s) && Silent(s, ch) && !Orphaned(s, ch) && a.Step? && a.k == s.channels[ch].owner
    ensures Closer(w, s, Apply(w, s, a), ch) && Apply(w, s, a).channels[ch].owner == a.k
    ensures Silent(Apply(w, s, a), ch) ==> !Orphaned(Apply(w, s, a), ch)
  {
    OwnerProgress(w, s, ch, a.choice);
    hide Inv, Next;
  }

  /** Nothing but its owner's own steps, and dropping its owner, touches a
      silent channel or moves its owner. */
  lemma OthersDoNotDelay(w: World, s: System, ch: nat, a: Action)
    requires Inv(w, s) && Silent(s, ch) && Enabled(w, s, a)
    requires !(a.Step? && a.k == s.channels[ch].owner) && !(a.Drop? && a.k == s.channels[ch].owner)
    ensures var t := Apply(w, s, a); var k := s.channels[ch].owner;
            && ch < |t.channels| && t.channels[ch] == s.channels[ch]
            && k < |s.clients| && k < |t.clients| && t.clients[k] == s.clients[k]
  {
    hide StoreOk, CachesOk, ClientsOk, FiledOk, Filed;
    assert ChannelOk(w, s, ch);
    if a.Step? {
      StepIsLocal(w, s, a.k, a.choice);
      assert FlightOk(s, a.k, s.clients[a.k]);
      hide Next;
    }
  }

  /** A message, once sent, stays as it is. */
  lemma MessagesStay(w: World, s: System, ch: nat, a: Action)
    requires Inv(w, s) && ch < |s.channels| && s.channels[ch].message.Some? && Enabled(w, s, a)
    ensures ch < |Apply(w, s, a).channels| && Apply(w, s, a).channels[ch] == s.channels[ch]
  {
    hide StoreOk, CachesOk, ClientsOk, FiledOk, Filed;
    if a.Step? {
      StepIsLocal(w, s, a.k, a.choice);
      assert FlightOk(s, a.k, s.clients[a.k]);
      hide Next;
    }
  }

  lemma CreatedStays(w: World, s: System, a: Action, id: Id)
    requires Enabled(w, s, a) && id in s.created
    ensures id in Apply(w, s, a).created && Apply(w, s, a).created[id] == s.created[id]
  {
    if a.Step? { StepIsLocal(w, s, a.k, a.choice); }
    hide Filed, Next;
  }

  /** How often client `k` steps in a run. */
  function Turns(actions: seq<Action>, k: nat): nat {
    if actions == [] then 0 else (if actions[0].Step? && actions[0].k == k then 1 else 0) + Turns(actions[1..], k)
  }

  predicate Drops(actions: seq<Action>, k: nat) {
    exists i | 0 <= i < |actions| :: actions[i] == Drop(k)
  }

  /** In every interleaving that does not drop the owner, three steps of the
      owner, however spread out, and every subscriber's channel holds the one
      result of the one build. */
  lemma {:induction false} SubscribersAreServed(w: World, s: System, ch: nat, actions: seq<Action>)
    requires Inv(w, s) && ch < |s.channels| && !Orphaned(s, ch)
    requires After(w, s, actions).Some?
    requires s.channels[ch].message.None? ==>
               && !Drops(actions, s.channels[ch].owner)
               && (s.channels[ch].owner < |s.clients| ==>
                   Turns(actions, s.channels[ch].owner) >= Left(s.clients[s.channels[ch].owner]))
    ensures var t := After(w, s, actions).value;
            && s.channels[ch].id in s.created && ch < |t.channels|
            && t.channels[ch].message == Some(w.build(s.created[s.channels[ch].id]))
    decreases |actions|
  {
    hide StoreOk, CachesOk, ClientsOk, FiledOk, Apply, Enabled;
    assert ChannelOk(w, s, ch);
    if Silent(s, ch) && actions == [] { OwnerProgress(w, s, ch, Choice({}, {}, false, [])); }
    if actions != [] {
      var a := actions[0];
      var t := Apply(w, s, a);
      ActionKeepsInv(w, s, a);
      DropsLater(actions);
      assert forall k :: !Drops(actions, k) ==> a != Drop(k);
      CreatedStays(w, s, a, s.channels[ch].id);
      if s.channels[ch].message.Some? {
        MessagesStay(w, s, ch, a);
      } else if a.Step? && a.k == s.channels[ch].owner {
        OwnerActs(w, s, ch, a);
      } else {
        OthersDoNotDelay(w, s, ch, a);
      }
      hide Drops, FlightsOk, ChannelOk;
      SubscribersAreServed(w, t, ch, actions[1..]);
    }
  }

  // ---- builds that run on their own

  /** The build of `id` is listed on a channel whose owner was dropped. */
  ghost predicate Abandoned(s: System, id: Id) {
    && id in s.builds && s.builds[id] < |s.channels|
    && s.channels[s.builds[id]].owner < |s.clients|
    && s.clients[s.channels[s.builds[id]].owner].Dropped?
  }

  ghost predicate DetachedOk(s: System) {
    && (forall i | 0 <= i < |s.detached| :: Abandoned(s, s.detached[i]))
    && (forall i, j | 0 <= i < j < |s.detached| :: s.detached[i] != s.detached[j])
  }

  /** No request still builds what was abandoned. */
  lemma AbandonedIsNotBuilt(w: World, s: System, id: Id, k: nat)
    requires Inv(w, s) && Abandoned(s, id) && k < |s.clients|
    ensures !Builds(s.clients[k], id)
  {
    assert FlightOk(s, k, s.clients[k]);
    hide StoreOk, CachesOk, ClientsOk, FiledOk;
  }

  lemma StepKeepsAbandoned(w: World, s: System, k: nat, choice: Choice, id: Id)
    requires Inv(w, s) && Abandoned(s, id) && k < |s.clients| && CanStep(w, s, k, choice)
    ensures Abandoned(Next(w, s, k, choice), id)
  {
    StepIsLocal(w, s, k, choice);
    AbandonedIsNotBuilt(w, s, id, k);
    assert !s.clients[k].Dropped?;
    hide Next, Inv, CanStep;
  }

  lemma BuildingIsListed(w: World, s: System, k: nat)
    requires Inv(w, s) && k < |s.clients| && s.clients[k].Building?
    ensures var id := s.clients[k].job.x.id;
            id in s.builds && s.builds[id] < |s.channels| && s.channels[s.builds[id]].owner == k
  {
    assert FlightOk(s, k, s.clients[k]);
    hide StoreOk, CachesOk, ClientsOk, FiledOk;
  }

  /** Nothing about the flights changes but that requests may arrive or go. */
  ghost predicate Leaves(s: System, t: System) {
    && t.builds == s.builds && t.channels == s.channels && |s.clients| <= |t.clients|
    && forall k | 0 <= k < |s.clients| && s.clients[k].Dropped? :: t.clients[k].Dropped?
  }

  lemma LeavingKeepsDetached(s: System, t: System)
    requires DetachedOk(s) && Leaves(s, t)
    ensures forall i | 0 <= i < |s.detached| :: Abandoned(t, s.detached[i])
    ensures t.detached == s.detached ==> DetachedOk(t)
  {
    forall i | 0 <= i < |s.detached| ensures Abandoned(t, s.detached[i]) { assert Abandoned(s, s.detached[i]); }
  }

  lemma OneMoreDetached(s: System, t: System, id: Id)
    requires DetachedOk(s) && Leaves(s, t) && t.detached == s.detached + [id] && id !in s.detached && Abandoned(t, id)
    ensures DetachedOk(t)
  {
    LeavingKeepsDetached(s, t);
    hide Abandoned, Leaves;
  }

  /** What a drop does to the flights. */
  lemma DropShape(w: World, s: System, k: nat)
    requires k < |s.clients|
    ensures var c := s.clients[k];
            Apply(w, s, Drop(k))
            == if c.Building? then s.(clients := s.clients[k := Dropped], detached := s.detached + [c.job.x.id])
               else s.(clients := s.clients[k := Dropped])
  {
  }

  lemma BuildingIsNotDetached(w: World, s: System, k: nat)
    requires Inv(w, s) && DetachedOk(s) && k < |s.clients| && s.clients[k].Building?
    ensures s.clients[k].job.x.id !in s.detached
  {
    hide Inv;
    var id := s.clients[k].job.x.id;
    if id in s.detached { AbandonedIsNotBuilt(w, s, id, k); }
  }

  /** A request dropped mid-build abandons a build nobody abandoned before. */
  lemma DropKeepsDetached(w: World, s: System, k: nat)
    requires Inv(w, s) && DetachedOk(s) && k < |s.clients| && Droppable(s.clients[k])
    ensures DetachedOk(Apply(w, s, Drop(k)))
  {
    hide Inv, Droppable, Apply, DetachedOk;
    var t := Apply(w, s, Drop(k));
    DropShape(w, s, k);
    assert Leaves(s, t);
    if s.clients[k].Building? {
      var id := s.clients[k].job.x.id;
      BuildingIsListed(w, s, k);
      BuildingIsNotDetached(w, s, k);
      OneMoreDetached(s, t, id);
    } else {
      LeavingKeepsDetached(s, t);
    }
  }

  /** Whatever is neither a step nor a drop leaves the flights alone. */
  lemma RestKeepsDetached(w: World, s: System, a: Action)
    requires DetachedOk(s) && Enabled(w, s, a) && !a.Step? && !a.Drop?
    ensures DetachedOk(Apply(w, s, a))
  {
    var t := Apply(w, s, a);
    hide Filed;
    assert Leaves(s, t);
    LeavingKeepsDetached(s, t);
    assert t.detached == s.detached || (a.FinishDetached? && t.detached == s.detached[..a.i] + s.detached[a.i + 1..]);
    hide Apply, Enabled, Abandoned;
  }

  lemma ActionKeepsDetached(w: World, s: System, a: Action)
    requires Inv(w, s) && DetachedOk(s) && Enabled(w, s, a)
    ensures DetachedOk(Apply(w, s, a))
  {
    match a {
      case Step(k, choice) =>
        StepIsLocal(w, s, k, choice);
        hide Next, Inv, CanStep, Abandoned;
        forall i | 0 <= i < |s.detached| ensures Abandoned(Next(w, s, k, choice), s.detached[i]) {
          StepKeepsAbandoned(w, s, k, choice, s.detached[i]);
        }
      case Drop(k) =>
        hide Inv, DetachedOk, Apply;
        DropKeepsDetached(w, s, k);
      case _ =>
        hide Inv, DetachedOk, Apply;
        RestKeepsDetached(w, s, a);
    }
  }

  lemma {:induction false} RunKeepsDetached(w: World, s: System, actions: seq<Action>)
    requires Inv(w, s) && DetachedOk(s) && After(w, s, actions).Some?
    ensures DetachedOk(After(w, s, actions).value)
    decreases |actions|
  {
    hide Inv, DetachedOk, Apply, Enabled;
    if actions != [] {
      ActionKeepsInv(w, s, actions[0]);
      ActionKeepsDetached(w, s, actions[0]);
      RunKeepsDetached(w, Apply(w, s, actions[0]), actions[1..]);
    }
  }

  /** One build per simulation at a time, counting those whose request is gone:
      no two requests build one simulation, no two builds left to themselves are
      of one, and no request builds what is still being built without one. The
      tape cache stays bounded. */
  lemma OneBuildPerSimulation(w: World, s: System, j: nat, k: nat, id: Id)
    requires Reachable(w, s)
    ensures j < |s.clients| && k < |s.clients| && Builds(s.clients[j], id) && Builds(s.clients[k], id) ==> j == k
    ensures forall i, i' | 0 <= i < i' < |s.detached| :: s.detached[i] != s.detached[i']
    ensures k < |s.clients| && Builds(s.clients[k], id) ==> id !in s.detached
    ensures |s.tapes| <= w.capacity
  {
    var actions :| After(w, Initial(), actions) == Some(s);
    assert Inv(w, Initial());
    RunKeepsInv(w, Initial(), actions);
    RunKeepsDetached(w, Initial(), actions);
    if j < |s.clients| && k < |s.clients| {
      assert FlightOk(s, j, s.clients[j]) && FlightOk(s, k, s.clients[k]);
    }
    if k < |s.clients| && id in s.detached { AbandonedIsNotBuilt(w, s, id, k); }
  }

  // ---- requests that are never dropped, and requests that are

  ghost predicate AllPresent(s: System) {
    forall k | 0 <= k < |s.clients| :: !s.clients[k].Dropped?
  }

  lemma ActionDropsNobody(w: World, s: System, a: Action)
    requires AllPresent(s) && Enabled(w, s, a) && !a.Drop?
    ensures AllPresent(Apply(w, s, a))
  {
    if a.Step? {
      StepIsLocal(w, s, a.k, a.choice);
      hide Next, CanStep;
    } else {
      hide Filed;
    }
  }

  lemma DropsLater(actions: seq<Action>)
    requires actions != []
    ensures forall k :: Drops(actions[1..], k) ==> Drops(actions, k)
  {
    forall k | Drops(actions[1..], k) ensures Drops(actions, k) {
      var i :| 0 <= i < |actions[1..]| && actions[1..][i] == Drop(k);
      assert actions[i + 1] == Drop(k);
    }
  }

  lemma {:induction false} NobodyIsDropped(w: World, s: System, actions: seq<Action>)
    requires AllPresent(s) && After(w, s, actions).Some? && forall k :: !Drops(actions, k)
    ensures AllPresent(After(w, s, actions).value)
    decreases |actions|
  {
    if actions != [] {
      var a := actions[0];
      assert a.Drop? ==> Drops(actions, a.k);
      DropsLater(actions);
      hide AllPresent, Apply, Enabled;
      ActionDropsNobody(w, s, a);
      NobodyIsDropped(w, Apply(w, s, a), actions[1..]);
    }
  }

  /** In a run where no request is dropped, whoever waits has its answer ready
      or waits for an owner that is at most three of its own steps away from
      publishing it. */
  lemma WaitersAreServed(w: World, s: System, actions: seq<Action>, k: nat)
    requires After(w, Initial(), actions) == Some(s) && forall j :: !Drops(actions, j)
    requires k < |s.clients| && s.clients[k].Waiting?
    ensures var ch := s.clients[k].channel; var x := s.clients[k].job.x;
            && ch < |s.channels| && s.channels[ch].owner < |s.clients|
            && match s.channels[ch].message
               case Some(result) => result == w.build(x.params)
               case None => 1 <= Left(s.clients[s.channels[ch].owner]) <= 3
  {
    NobodyIsDropped(w, Initial(), actions);
    assert Inv(w, Initial());
    RunKeepsInv(w, Initial(), actions);
    assert FlightOk(s, k, s.clients[k]) && ClientOk(w, s, k, s.clients[k]);
    var ch := s.clients[k].channel;
    assert ChannelOk(w, s, ch);
    if Silent(s, ch) { OwnerStands(w, s, ch); }
  }

  lemma OrphanStays(w: World, s: System, ch: nat, a: Action)
    requires Inv(w, s) && Orphaned(s, ch) && Enabled(w, s, a)
    ensures Orphaned(Apply(w, s, a), ch) && Apply(w, s, a).channels[ch] == s.channels[ch]
  {
    OthersDoNotDelay(w, s, ch, a);
  }

  /** Waiting on `ch`, or gone. */
  predicate Stuck(s: System, j: nat, ch: nat) {
    j < |s.clients| && (s.clients[j].Dropped? || (s.clients[j].Waiting? && s.clients[j].channel == ch))
  }

  lemma OthersLeaveWaiters(w: World, s: System, j: nat, a: Action)
    requires Enabled(w, s, a) && j < |s.clients| && !(a.Step? && a.k == j)
    ensures var t := Apply(w, s, a); j < |t.clients| && (t.clients[j] == s.clients[j] || t.clients[j].Dropped?)
  {
    if a.Step? { StepIsLocal(w, s, a.k, a.choice); }
    hide Next, Filed, CanStep;
  }

  lemma WaiterStays(w: World, s: System, ch: nat, j: nat, a: Action)
    requires Inv(w, s) && Orphaned(s, ch) && Enabled(w, s, a) && Stuck(s, j, ch)
    ensures Stuck(Apply(w, s, a), j, ch)
  {
    if s.clients[j].Waiting? { SenderIsHeld(w, s, j); }
    assert !(a.Step? && a.k == j);
    hide Inv, SenderHeld, Apply;
    OthersLeaveWaiters(w, s, j, a);
  }

  /** A channel whose owner was dropped stays silent in every continuation, and
      whoever waits on it waits until dropped itself: the build table keeps the
      sender, so the channel never closes and the rebuild arm is never reached. */
  lemma {:induction false} OrphansNeverSpeak(w: World, s: System, ch: nat, j: nat, actions: seq<Action>)
    requires Inv(w, s) && Orphaned(s, ch) && After(w, s, actions).Some? && Stuck(s, j, ch)
    ensures Orphaned(After(w, s, actions).value, ch) && Stuck(After(w, s, actions).value, j, ch)
    ensures ch < |s.channels| && ch < |After(w, s, actions).value.channels|
    ensures After(w, s, actions).value.channels[ch] == s.channels[ch]
    decreases |actions|
  {
    assert ch < |s.channels|;
    hide Inv, Apply, Enabled, Stuck, Orphaned;
    if actions != [] {
      var a := actions[0];
      ActionKeepsInv(w, s, a);
      OrphanStays(w, s, ch, a);
      WaiterStays(w, s, ch, j, a);
      OrphansNeverSpeak(w, Apply(w, s, a), ch, j, actions[1..]);
    }
  }

  /** An orphaned channel is never taken off the list, so a request that comes to
      claim the build joins it. */
  lemma ClaimersJoinTheOrphan(w: World, s: System, ch: nat, k: nat, choice: Choice)
    requires Inv(w, s) && Orphaned(s, ch)
    requires k < |s.clients| && s.clients[k].Claim? && s.clients[k].job.x.id == s.channels[ch].id
    ensures Listed(s, s.channels[ch].id, ch)
    ensures CanStep(w, s, k, choice) && Next(w, s, k, choice).clients[k] == Waiting(s.clients[k].job, ch)
  {
    assert ChannelOk(w, s, ch);
    hide StoreOk, CachesOk, ClientsOk, FiledOk;
  }

  /** In every continuation of an orphaned build, whoever then comes to claim a
      build of that simulation waits on the silent channel too, from there on
      until dropped. */
  lemma LateClaimersGetStuck(w: World, s: System, ch: nat, actions: seq<Action>, k: nat, choice: Choice,
      later: seq<Action>)
    requires Inv(w, s) && Orphaned(s, ch) && After(w, s, actions).Some?
    requires var t := After(w, s, actions).value;
             && k < |t.clients| && t.clients[k].Claim? && t.clients[k].job.x.id == s.channels[ch].id
             && After(w, Next(w, t, k, choice), later).Some?
    ensures var t := After(w, s, actions).value;
            Stuck(After(w, Next(w, t, k, choice), later).value, k, ch)
  {
    var t := After(w, s, actions).value;
    OrphansNeverSpeak(w, s, ch, s.channels[ch].owner, actions);
    RunKeepsInv(w, s, actions);
    ClaimersJoinTheOrphan(w, t, ch, k, choice);
    var a := Step(k, choice);
    ActionKeepsInv(w, t, a);
    OrphanStays(w, t, ch, a);
    StepIsLocal(w, t, k, choice);
    hide Inv, Next, Orphaned, CanStep;
    OrphansNeverSpeak(w, Next(w, t, k, choice), ch, k, later);
  }

  /** Filing one tape fits when everything else is displaced. */
  lemma RoomForOne(w: World, tapes: map<Id, Tape>, id: Id, params: Params)
    requires |tapes| <= w.capacity && w.capacity >= 1
    ensures |Filed(w, tapes, id, params, tapes.Keys)| <= w.capacity
  {
    match w.build(params)
    case Ok(tape) =>
      assert (tapes - (tapes.Keys + {id})).Keys == {};
      assert Filed(w, tapes, id, params, tapes.Keys).Keys == {id};
    case Err(_) =>
  }

  /** The owner can always take its next step. */
  lemma OwnerCanStep(w: World, s: System, ch: nat) returns (choice: Choice)
    requires Inv(w, s) && Silent(s, ch) && !Orphaned(s, ch) && w.capacity >= 1
    ensures s.channels[ch].owner < |s.clients| && CanStep(w, s, s.channels[ch].owner, choice)
  {
    choice := Choice(s.tapes.Keys, {}, false, []);
    OwnerStands(w, s, ch);
    assert |s.tapes| <= w.capacity;
    hide Inv, Orphaned, Filed;
    var k := s.channels[ch].owner;
    if s.clients[k].Building? { RoomForOne(w, s.tapes, s.clients[k].job.x.id, s.clients[k].job.x.params); }
  }

  lemma {:induction false} OwnerFinishes(w: World, s: System, ch: nat) returns (actions: seq<Action>)
    requires Inv(w, s) && ch < |s.channels| && !Orphaned(s, ch) && w.capacity >= 1
    ensures After(w, s, actions).Some? && ch < |After(w, s, actions).value.channels|
    ensures After(w, s, actions).value.channels[ch].message.Some?
    decreases if s.channels[ch].message.None? && s.channels[ch].owner < |s.clients|
              then Left(s.clients[s.channels[ch].owner]) else 0
  {
    hide StoreOk, CachesOk, ClientsOk, FiledOk, FlightsOk;
    actions := [];
    if Silent(s, ch) {
      var choice := OwnerCanStep(w, s, ch);
      var a := Step(s.channels[ch].owner, choice);
      OwnerProgress(w, s, ch, choice);
      ActionKeepsInv(w, s, a);
      hide Inv;
      var rest := OwnerFinishes(w, Apply(w, s, a), ch);
      actions := [a] + rest;
      assert actions[1..] == rest;
    }
  }

  ghost predicate Speaks(w: World, s: System, ch: nat, actions: seq<Action>) {
    && After(w, s, actions).Some?
    && ch < |After(w, s, actions).value.channels|
    && After(w, s, actions).value.channels[ch].message.Some?
  }

  /** Exactly the channels whose owner is alive can still deliver. */
  lemma DeliveryNeedsALiveOwner(w: World, s: System, ch: nat)
    requires Reachable(w, s) && ch < |s.channels| && w.capacity >= 1
    ensures (exists actions :: Speaks(w, s, ch, actions)) <==> !Orphaned(s, ch)
  {
    ReachableIsLawful(w, s);
    if Orphaned(s, ch) {
      forall actions ensures !Speaks(w, s, ch, actions) {
        if After(w, s, actions).Some? { OrphansNeverSpeak(w, s, ch, s.channels[ch].owner, actions); }
      }
    } else {
      var actions := OwnerFinishes(w, s, ch);
      assert Speaks(w, s, ch, actions);
    }
  }
}
