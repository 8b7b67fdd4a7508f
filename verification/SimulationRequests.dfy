/** What a request of the v2 manager does between its arrival and its answer,
    whatever others do meanwhile: a peek only looks, an advance takes the one
    step it answers with, and what is deleted stays deleted. */
module SimulationRequests {
  import opened Results
  import opened SimulationModel
  import opened SimulationProtocol
  import opened SimulationSafety
  import opened SimulationRuns

  // ---- what a read of one document may come to

  /** The snapshot of a step, built and priced with nothing cached. */
  ghost predicate IsPriced(w: World, params: Params, step: nat, snap: Snap) {
    w.build(params).Ok? && w.snap(params, w.build(params).value, step) == Ok(snap)
  }

  /** The document an advance of `x` leaves: one step and one revision on, and
      completed exactly at the horizon. */
  ghost predicate IsOneOn(x: Simulation, y: Simulation) {
    && y.id == x.id && y.params == x.params && y.total == x.total
    && y.cursor == x.cursor + 1 && y.version == x.version + 1
    && y.state == if y.cursor == y.total then Completed else InProgress
  }

  /** How a read of `x` ends: with the snapshot at its cursor and, for a peek, `x`
      itself, for an advance `x` one on; or with a reason that is true. Only an
      advance can find the document gone or moved since. */
  ghost predicate EndsRead(w: World, o: Outcome, x: Simulation, advance: bool) {
    match o
    case Answer(y, step, snap) =>
      && step == x.cursor && IsPriced(w, x.params, step, snap)
      && if advance then IsOneOn(x, y) else y == x
    case Failed(NotFound) => advance
    case Failed(Conflict) => advance
    case Failed(Simulator(reason)) =>
      || w.build(x.params) == Err(reason)
      || (w.build(x.params).Ok? && w.snap(x.params, w.build(x.params).value, x.cursor) == Err(reason))
    case Failed(Internal(reason)) => w.build(x.params) == Err(reason)
    case _ => false
  }

  /** The request read `x` and is on its way to such an end. */
  ghost predicate Pursues(w: World, c: Client, x: Simulation, advance: bool) {
    match c
    case LookSnapshot(job) => job == Job(x, advance)
    case LookTape(job) => job == Job(x, advance)
    case Claim(job) => job == Job(x, advance)
    case Waiting(job, _) => job == Job(x, advance)
    case Building(job, _) => job == Job(x, advance)
    case Built(job, _, _) => job == Job(x, advance)
    case Unlisted(job, _, _) => job == Job(x, advance)
    case Price(job, _) => job == Job(x, advance)
    case CacheSnapshot(job, _) => job == Job(x, advance)
    case Commit(job, _) => job == Job(x, advance) && advance
    case Committed(y, _) => advance && IsOneOn(x, y)
    case EvictTape(_, o) => advance && EndsRead(w, o, x, advance)
    case EvictSnapshots(_, o) => advance && EndsRead(w, o, x, advance)
    case Done(o) => EndsRead(w, o, x, advance)
    case Dropped => true
    case _ => false
  }

  lemma ProceedPursues(w: World, job: Job, snap: Snap)
    requires IsPure(w, job.x.params, job.x.cursor, snap)
    ensures Pursues(w, Proceed(job, snap), job.x, job.advance)
  {
  }

  lemma SettlePursues(w: World, job: Job)
    ensures Pursues(w, Settle(job, w.build(job.x.params)), job.x, job.advance)
  {
  }

  lemma ReadSnapshotPursues(w: World, s: System, k: nat, job: Job)
    requires CachesOk(w, s) && k < |s.clients| && JobOk(w, s, job.x)
    ensures Pursues(w, ReadSnapshot(s, k, job).clients[k], job.x, job.advance)
  {
    var key := (job.x.id, job.x.cursor);
    if key in s.snaps { ProceedPursues(w, job, s.snaps[key]); }
  }

  lemma ReceivePursues(w: World, s: System, k: nat, job: Job, ch: nat, choice: Choice)
    requires Inv(w, s) && k < |s.clients| && s.clients[k] == Waiting(job, ch) && CanStep(w, s, k, choice)
    ensures Pursues(w, Receive(s, k, job, ch).clients[k], job.x, job.advance)
  {
    ReceiveIsPure(w, s, k, choice);
    hide Inv, CanStep, Receive;
  }

  /** Looking for the tape, joining and building keep the job. */
  lemma LookingPursues(w: World, s: System, k: nat, job: Job, owned: Option<nat>, displaced: set<Id>)
    requires k < |s.clients|
    ensures Pursues(w, ReadTape(s, k, job).clients[k], job.x, job.advance)
    ensures Pursues(w, Join(s, k, job).clients[k], job.x, job.advance)
    ensures Pursues(w, Build(w, s, k, job, owned, displaced).clients[k], job.x, job.advance)
  {
    hide Filed, EndsRead, IsOneOn, Stays, Quiet;
  }

  /** So do unlisting and publishing what was built. */
  lemma OwningPursues(w: World, s: System, k: nat, job: Job, owned: Option<nat>, ch: nat)
    requires k < |s.clients|
    ensures Pursues(w, Unlist(s, k, job, owned, w.build(job.x.params)).clients[k], job.x, job.advance)
    ensures ch < |s.channels| ==>
              Pursues(w, Publish(s, k, job, ch, w.build(job.x.params)).clients[k], job.x, job.advance)
  {
    SettlePursues(w, job);
    hide Settle, EndsRead, IsOneOn, Stays, Quiet;
  }

  lemma RefusalEnds(w: World, x: Simulation, advance: bool, tape: Tape, reason: string)
    requires w.build(x.params) == Ok(tape) && w.snap(x.params, tape, x.cursor) == Err(reason)
    ensures EndsRead(w, Failed(Simulator(reason)), x, advance)
  {
  }

  lemma PricePursues(w: World, s: System, k: nat, job: Job, tape: Tape)
    requires k < |s.clients| && w.build(job.x.params) == Ok(tape)
    ensures Pursues(w, PriceSnapshot(w, s, k, job, tape).clients[k], job.x, job.advance)
  {
    match w.snap(job.x.params, tape, job.x.cursor)
    case Err(reason) => RefusalEnds(w, job.x, job.advance, tape, reason);
    case Ok(_) =>
    hide EndsRead, IsOneOn, Stays, Quiet;
  }

  lemma StorePursues(w: World, s: System, k: nat, job: Job, snap: Snap, choice: Choice)
    requires k < |s.clients| && IsPure(w, job.x.params, job.x.cursor, snap)
    ensures Pursues(w, Store(s, k, job, snap, choice).clients[k], job.x, job.advance)
  {
    ProceedPursues(w, job, snap);
    hide Proceed, IsPure, Pursues, Stays, Quiet;
  }

  /** An advance of a document still short of its horizon moves it one on. */
  lemma AdvancedIsOneOn(w: World, s: System, x: Simulation)
    requires JobOk(w, s, x)
    ensures Advanced(x).Ok? && IsOneOn(x, Advanced(x).value)
  {
    AdvanceIsLawful(w, x);
    hide Advanced;
  }

  lemma LateSavesEnd(w: World, x: Simulation)
    ensures EndsRead(w, Failed(NotFound), x, true) && EndsRead(w, Failed(Conflict), x, true)
  {
  }

  lemma SavePursues(w: World, s: System, k: nat, choice: Choice)
    requires Inv(w, s) && k < |s.clients| && s.clients[k].Commit?
    ensures var t := Next(w, s, k, choice); k < |t.clients| ==> Pursues(w, t.clients[k], s.clients[k].job.x, true)
  {
    var x := s.clients[k].job.x;
    assert ClientOk(w, s, k, s.clients[k]);
    assert |Log(s, x.id)| >= x.cursor;
    CommitOutcome(w, s, k, choice);
    CommitCases(w, s, k, choice);
    AdvancedIsOneOn(w, s, x);
    LateSavesEnd(w, x);
    hide Inv, Next, Advanced, JobOk, IsPure, IsOneOn, EndsRead, StateAt, Log;
  }

  lemma FilePursues(w: World, s: System, k: nat, x: Simulation, y: Simulation, snap: Snap, admit: bool)
    requires k < |s.clients| && IsOneOn(x, y) && IsPure(w, y.params, y.cursor - 1, snap)
    ensures Pursues(w, File(s, k, y, snap, admit).clients[k], x, true)
  {
    hide Stays, Quiet;
  }

  lemma EvictionPursues(w: World, s: System, k: nat, ids: seq<Id>, o: Outcome, x: Simulation)
    requires k < |s.clients| && EndsRead(w, o, x, true)
    ensures Pursues(w, DropTape(s, k, ids, o).clients[k], x, true)
    ensures Pursues(w, DropSnapshots(s, k, ids, o).clients[k], x, true)
  {
    hide EndsRead, Without, Stays, Quiet;
  }

  /** Where a request stands, and what it will do next. */
  predicate Searching(c: Client) {
    c.LookSnapshot? || c.LookTape? || c.Claim? || c.Waiting? || c.Building? || c.Built? || c.Unlisted?
  }

  lemma SearchPursues(w: World, s: System, k: nat, choice: Choice)
    requires Inv(w, s) && k < |s.clients| && CanStep(w, s, k, choice) && Searching(s.clients[k])
    ensures var t := Next(w, s, k, choice);
            k < |t.clients| ==> Pursues(w, t.clients[k], s.clients[k].job.x, s.clients[k].job.advance)
  {
    assert ClientOk(w, s, k, s.clients[k]) && FlightOk(s, k, s.clients[k]);
    hide StoreOk, ClientsOk, FlightsOk, FiledOk, CachesOk, JobOk, Pursues, SenderHeld, Filed;
    hide ReadSnapshot, ReadTape, Join, Receive, Build, Unlist, Publish;
    match s.clients[k]
    case LookSnapshot(job) => ReadSnapshotPursues(w, s, k, job);
    case Waiting(job, ch) => ReceivePursues(w, s, k, job, ch, choice);
    case Building(job, owned) => LookingPursues(w, s, k, job, owned, choice.tapes);
    case Built(job, owned, _) => OwningPursues(w, s, k, job, owned, 0);
    case Unlisted(job, ch, _) => OwningPursues(w, s, k, job, None, ch);
    case LookTape(job) => LookingPursues(w, s, k, job, None, {});
    case Claim(job) => LookingPursues(w, s, k, job, None, {});
  }

  predicate Serving(c: Client) {
    c.Price? || c.CacheSnapshot? || c.Commit?
  }

  lemma ServingPursues(w: World, s: System, k: nat, choice: Choice)
    requires Inv(w, s) && k < |s.clients| && Serving(s.clients[k])
    requires s.clients[k].Commit? ==> s.clients[k].job.advance
    ensures var t := Next(w, s, k, choice);
            k < |t.clients| ==> Pursues(w, t.clients[k], s.clients[k].job.x, s.clients[k].job.advance)
  {
    assert ClientOk(w, s, k, s.clients[k]);
    hide ClientsOk, FlightsOk, FiledOk, CachesOk, StoreOk, JobOk, IsPure, Pursues, PriceSnapshot, Store, Save;
    match s.clients[k]
    case Price(job, tape) => PricePursues(w, s, k, job, tape);
    case CacheSnapshot(job, snap) => StorePursues(w, s, k, job, snap, choice);
    case Commit(_, _) => SavePursues(w, s, k, choice);
  }

  lemma EndingPursues(w: World, s: System, k: nat, choice: Choice, x: Simulation, advance: bool)
    requires Inv(w, s) && k < |s.clients| && Pursues(w, s.clients[k], x, advance)
    requires !Searching(s.clients[k]) && !Serving(s.clients[k])
    ensures var t := Next(w, s, k, choice); k < |t.clients| ==> Pursues(w, t.clients[k], x, advance)
  {
    assert ClientOk(w, s, k, s.clients[k]);
    hide ClientsOk, FlightsOk, FiledOk, CachesOk, StoreOk, IsPure, EndsRead, IsOneOn, File, DropTape, DropSnapshots;
    match s.clients[k]
    case Committed(y, snap) => FilePursues(w, s, k, x, y, snap, choice.admit);
    case EvictTape(ids, o) => EvictionPursues(w, s, k, ids, o, x);
    case EvictSnapshots(ids, o) => EvictionPursues(w, s, k, ids, o, x);
    case Done(_) =>
    case Dropped =>
  }

  /** Its own steps keep a request on its way. */
  lemma StepPursues(w: World, s: System, k: nat, choice: Choice, x: Simulation, advance: bool)
    requires Inv(w, s) && k < |s.clients| && CanStep(w, s, k, choice) && Pursues(w, s.clients[k], x, advance)
    ensures var t := Next(w, s, k, choice); k < |t.clients| ==> Pursues(w, t.clients[k], x, advance)
  {
    if Searching(s.clients[k]) {
      SearchPursues(w, s, k, choice);
      assert s.clients[k].job == Job(x, advance);
      hide Pursues, Next, Inv, CanStep;
    } else if Serving(s.clients[k]) {
      assert s.clients[k].job == Job(x, advance);
      ServingPursues(w, s, k, choice);
      hide Pursues, Next, Inv, CanStep;
    } else {
      EndingPursues(w, s, k, choice, x, advance);
      hide Pursues, Next, Inv, CanStep;
    }
  }

  lemma DroppedPursues(w: World, c: Client, x: Simulation, advance: bool)
    ensures c.Dropped? ==> Pursues(w, c, x, advance)
  {
  }

  lemma ActionPursues(w: World, s: System, k: nat, a: Action, x: Simulation, advance: bool)
    requires Inv(w, s) && k < |s.clients| && Enabled(w, s, a) && Pursues(w, s.clients[k], x, advance)
    ensures k < |Apply(w, s, a).clients| && Pursues(w, Apply(w, s, a).clients[k], x, advance)
  {
    hide Inv, Next, CanStep, Pursues;
    if a.Step? && a.k == k {
      StepPursues(w, s, k, a.choice, x, advance);
      StepIsLocal(w, s, k, a.choice);
    } else {
      hide Apply, Enabled;
      OthersLeaveWaiters(w, s, k, a);
      DroppedPursues(w, Apply(w, s, a).clients[k], x, advance);
    }
  }

  lemma {:induction false} RunPursues(w: World, s: System, k: nat, x: Simulation, advance: bool, actions: seq<Action>)
    requires Inv(w, s) && k < |s.clients| && Pursues(w, s.clients[k], x, advance) && After(w, s, actions).Some?
    ensures k < |After(w, s, actions).value.clients|
    ensures Pursues(w, After(w, s, actions).value.clients[k], x, advance)
    decreases |actions|
  {
    hide Inv, Pursues, Apply, Enabled;
    if actions != [] {
      ActionKeepsInv(w, s, actions[0]);
      ActionPursues(w, s, k, actions[0], x, advance);
      RunPursues(w, Apply(w, s, actions[0]), k, x, advance, actions[1..]);
    }
  }

  // ---- from the fetch

  /** Once it has fetched, a read is answered with the document it fetched,
      whatever is stored, evicted or committed in between. */
  lemma FetchedDocumentIsAnswered(w: World, s: System, k: nat, choice: Choice, actions: seq<Action>)
    requires Inv(w, s) && k < |s.clients| && s.clients[k].Fetch?
    requires After(w, Next(w, s, k, choice), actions).Some?
    ensures var id, advance := s.clients[k].id, s.clients[k].advance;
            var t := After(w, Next(w, s, k, choice), actions).value;
            && k < |t.clients|
            && (t.clients[k].Dropped? || (
                  if id !in s.store then t.clients[k] == Done(Failed(NotFound))
                  else if s.store[id].cursor == s.store[id].total then t.clients[k] == Done(Failed(Gone))
                  else Pursues(w, t.clients[k], s.store[id], advance)))
  {
    var id, t := s.clients[k].id, Next(w, s, k, choice);
    FetchOutcome(w, s, k, choice);
    StepIsLocal(w, s, k, choice);
    StepKeepsInv(w, s, k, choice);
    if id in s.store { assert DocumentOk(w, s, id); }
    hide Inv, Next, Pursues;
    if t.clients[k].LookSnapshot? {
      FetchPursues(w, t.clients[k]);
      RunPursues(w, t, k, s.store[id], s.clients[k].advance, actions);
    } else {
      DoneStaysDone(w, t, k, actions);
    }
  }

  lemma FetchPursues(w: World, c: Client)
    requires c.LookSnapshot?
    ensures Pursues(w, c, c.job.x, c.job.advance)
  {
  }

  lemma {:induction false} DoneStaysDone(w: World, s: System, k: nat, actions: seq<Action>)
    requires k < |s.clients| && (s.clients[k].Done? || s.clients[k].Dropped?) && After(w, s, actions).Some?
    ensures k < |After(w, s, actions).value.clients|
    ensures After(w, s, actions).value.clients[k] == s.clients[k]
    decreases |actions|
  {
    if actions != [] {
      OverIsOver(w, s, k, actions[0]);
      hide Apply, Enabled;
      DoneStaysDone(w, Apply(w, s, actions[0]), k, actions[1..]);
    }
  }

  lemma OverIsOver(w: World, s: System, k: nat, a: Action)
    requires k < |s.clients| && (s.clients[k].Done? || s.clients[k].Dropped?) && Enabled(w, s, a)
    ensures k < |Apply(w, s, a).clients| && Apply(w, s, a).clients[k] == s.clients[k]
  {
    if a.Step? { StepIsLocal(w, s, a.k, a.choice); }
    hide Next, Filed;
  }

  // ---- from the arrival

  /** A request that arrived to read `id`: not yet begun, turned away, gone, or on
      its way with a document of that simulation. */
  ghost predicate Reads(w: World, c: Client, id: Id, advance: bool) {
    || c == Fetch(id, advance) || c.Dropped? || c == Done(Failed(NotFound)) || c == Done(Failed(Gone))
    || exists x: Simulation :: x.id == id && Pursues(w, c, x, advance)
  }

  lemma FetchReads(w: World, s: System, k: nat, choice: Choice)
    requires Inv(w, s) && k < |s.clients| && s.clients[k].Fetch?
    ensures var t := Next(w, s, k, choice);
            k < |t.clients| && Reads(w, t.clients[k], s.clients[k].id, s.clients[k].advance)
  {
    var id, t := s.clients[k].id, Next(w, s, k, choice);
    FetchOutcome(w, s, k, choice);
    StepIsLocal(w, s, k, choice);
    if id in s.store { assert DocumentOk(w, s, id); }
    hide Inv, Next, Pursues;
    if t.clients[k].LookSnapshot? { FetchPursues(w, t.clients[k]); }
  }

  lemma ActionReads(w: World, s: System, k: nat, a: Action, id: Id, advance: bool)
    requires Inv(w, s) && k < |s.clients| && Enabled(w, s, a) && Reads(w, s.clients[k], id, advance)
    ensures k < |Apply(w, s, a).clients| && Reads(w, Apply(w, s, a).clients[k], id, advance)
  {
    hide Inv, Next, CanStep, Pursues;
    var c := s.clients[k];
    if c == Fetch(id, advance) {
      if a.Step? && a.k == k {
        FetchReads(w, s, k, a.choice);
      } else {
        OthersLeaveWaiters(w, s, k, a);
        hide Apply, Enabled;
      }
    } else if c.Dropped? || c == Done(Failed(NotFound)) || c == Done(Failed(Gone)) {
      OverIsOver(w, s, k, a);
      hide Apply, Enabled;
    } else {
      hide Apply, Enabled;
      var x: Simulation :| x.id == id && Pursues(w, c, x, advance);
      ActionPursues(w, s, k, a, x, advance);
    }
  }

  /** No committed advance is client `k`'s. */
  ghost predicate WonNothing(s: System, k: nat) {
    forall id <- s.served :: forall step | 0 <= step < |s.served[id]| :: s.served[id][step].winner != k
  }

  /** The documents, the log and what was filed stay as they are. */
  ghost predicate Unwritten(s: System, t: System) {
    t.store == s.store && t.served == s.served && t.filed == s.filed
  }

  lemma LoadWritesNothing(s: System, k: nat, id: Id, advance: bool)
    requires k < |s.clients|
    ensures Unwritten(s, Load(s, k, id, advance))
  {
    hide RejectTerminal, Stays, Quiet;
  }

  lemma LooksWriteNothing(s: System, k: nat, job: Job)
    requires k < |s.clients|
    ensures Unwritten(s, ReadSnapshot(s, k, job)) && Unwritten(s, ReadTape(s, k, job))
  {
    hide Proceed, Stays, Quiet;
  }

  lemma PricingWritesNothing(w: World, s: System, k: nat, job: Job, tape: Tape)
    requires k < |s.clients|
    ensures Unwritten(s, PriceSnapshot(w, s, k, job, tape))
  {
    hide Stays, Quiet;
  }

  lemma StoringWritesNothing(s: System, k: nat, job: Job, snap: Snap, choice: Choice)
    requires k < |s.clients|
    ensures Unwritten(s, Store(s, k, job, snap, choice))
  {
    hide Proceed, Stays, Quiet;
  }

  lemma EvictingWritesNothing(s: System, k: nat, ids: seq<Id>, o: Outcome)
    requires k < |s.clients|
    ensures Unwritten(s, DropTape(s, k, ids, o)) && Unwritten(s, DropSnapshots(s, k, ids, o))
  {
    hide Without, Evicting, Stays, Quiet;
  }

  lemma JoiningWritesNothing(s: System, k: nat, job: Job)
    requires k < |s.clients|
    ensures Unwritten(s, Join(s, k, job))
  {
    hide Stays, Quiet;
  }

  lemma ReceivingWritesNothing(s: System, k: nat, job: Job, ch: nat)
    requires k < |s.clients|
    ensures Unwritten(s, Receive(s, k, job, ch))
  {
    hide Stays, Quiet;
  }

  lemma BuildingWritesNothing(w: World, s: System, k: nat, job: Job, owned: Option<nat>, displaced: set<Id>)
    requires k < |s.clients|
    ensures Unwritten(s, Build(w, s, k, job, owned, displaced))
  {
    hide Stays, Quiet, Filed;
  }

  lemma PublishingWritesNothing(s: System, k: nat, job: Job, owned: Option<nat>, ch: nat, result: Result<Tape, string>)
    requires k < |s.clients|
    ensures Unwritten(s, Unlist(s, k, job, owned, result)) && Unwritten(s, Publish(s, k, job, ch, result))
  {
    hide Stays, Settle;
  }

  lemma FilingServesNothing(s: System, k: nat, x: Simulation, snap: Snap, admit: bool)
    requires k < |s.clients|
    ensures File(s, k, x, snap, admit).served == s.served
  {
    hide Stays, Quiet;
  }

  lemma DeletingServesNothing(s: System, k: nat, id: Id, ids: seq<Id>)
    requires k < |s.clients|
    ensures Delete(s, k, id).served == s.served && Reap(s, k, ids).served == s.served
  {
    hide Evicting, Stays, Quiet;
  }

  /** Steps that neither save, file nor delete write nothing but the caches. */
  lemma ReadingStepsWriteNothing(w: World, s: System, k: nat, choice: Choice)
    requires k < |s.clients|
    requires var c := s.clients[k]; !c.Commit? && !c.Committed? && !c.Remove? && !c.Sweep?
    ensures Unwritten(s, Next(w, s, k, choice))
  {
    hide Load, ReadSnapshot, ReadTape, Join, Receive, Build, Unlist, Publish, PriceSnapshot, Store, DropTape,
      DropSnapshots, Stays, Quiet;
    match s.clients[k]
    case Fetch(id, advance) => LoadWritesNothing(s, k, id, advance);
    case LookSnapshot(job) => LooksWriteNothing(s, k, job);
    case LookTape(job) => LooksWriteNothing(s, k, job);
    case Claim(job) => JoiningWritesNothing(s, k, job);
    case Waiting(job, ch) => ReceivingWritesNothing(s, k, job, ch);
    case Building(job, owned) => BuildingWritesNothing(w, s, k, job, owned, choice.tapes);
    case Built(job, owned, result) => PublishingWritesNothing(s, k, job, owned, 0, result);
    case Unlisted(job, ch, result) => PublishingWritesNothing(s, k, job, None, ch, result);
    case Price(job, tape) => PricingWritesNothing(w, s, k, job, tape);
    case CacheSnapshot(job, snap) => StoringWritesNothing(s, k, job, snap, choice);
    case EvictTape(ids, o) => EvictingWritesNothing(s, k, ids, o);
    case EvictSnapshots(ids, o) => EvictingWritesNothing(s, k, ids, o);
    case Done(_) =>
    case Dropped =>
  }

  lemma OnlyCommitsServe(w: World, s: System, k: nat, choice: Choice)
    requires k < |s.clients| && !s.clients[k].Commit?
    ensures Next(w, s, k, choice).served == s.served
  {
    hide File, Delete, Reap, Stays, Quiet;
    match s.clients[k]
    case Committed(x, snap) => FilingServesNothing(s, k, x, snap, choice.admit);
    case Remove(id) => DeletingServesNothing(s, k, id, []);
    case Sweep => DeletingServesNothing(s, k, 0, choice.expired);
    case _ =>
      ReadingStepsWriteNothing(w, s, k, choice);
      hide Next;
  }

  lemma SaveServes(w: World, s: System, j: nat, job: Job, snap: Snap, k: nat)
    requires j < |s.clients| && j != k && WonNothing(s, k)
    ensures WonNothing(Save(w, s, j, job, snap), k)
  {
    hide Verdict;
  }

  lemma ActionWins(w: World, s: System, k: nat, a: Action)
    requires Enabled(w, s, a) && WonNothing(s, k)
    requires a.Step? && a.k == k ==> !s.clients[k].Commit?
    ensures WonNothing(Apply(w, s, a), k)
  {
    if a.Step? && s.clients[a.k].Commit? {
      SaveServes(w, s, a.k, s.clients[a.k].job, s.clients[a.k].snap, k);
      hide WonNothing, Save, CanStep;
    } else if a.Step? {
      OnlyCommitsServe(w, s, a.k, a.choice);
      hide Next, CanStep;
    } else {
      hide Filed;
    }
  }

  lemma NewcomersWonNothing(w: World, s: System, k: nat)
    requires Inv(w, s) && k < |s.clients| && s.clients[k].Fetch?
    ensures WonNothing(s, k)
  {
    hide CachesOk, ClientsOk, FlightsOk, FiledOk, IsPure;
    forall id <- s.served, step | 0 <= step < |s.served[id]| ensures s.served[id][step].winner != k {
      assert LogOk(w, s, id);
    }
  }

  /** Where a peek can stand. */
  lemma PeeksDoNotCommit(w: World, c: Client, id: Id)
    requires Reads(w, c, id, false)
    ensures !c.Commit? && !c.Committed? && !c.Remove? && !c.Sweep? && !c.EvictTape? && !c.EvictSnapshots?
  {
  }

  lemma {:induction false} RunReads(w: World, s: System, k: nat, id: Id, advance: bool, actions: seq<Action>)
    requires Inv(w, s) && k < |s.clients| && Reads(w, s.clients[k], id, advance) && After(w, s, actions).Some?
    ensures k < |After(w, s, actions).value.clients|
    ensures Reads(w, After(w, s, actions).value.clients[k], id, advance)
    ensures !advance && WonNothing(s, k) ==> WonNothing(After(w, s, actions).value, k)
    decreases |actions|
  {
    hide Inv, Reads, Apply, Enabled, WonNothing;
    if actions != [] {
      ActionKeepsInv(w, s, actions[0]);
      ActionReads(w, s, k, actions[0], id, advance);
      if !advance && WonNothing(s, k) {
        PeeksDoNotCommit(w, s.clients[k], id);
        ActionWins(w, s, k, actions[0]);
      }
      RunReads(w, Apply(w, s, actions[0]), k, id, advance, actions[1..]);
    }
  }

  /** In every continuation of a peek's arrival: no committed step is the peek's,
      none of its own steps changes the store, the log or what was filed, and if
      it is answered, then with a document still at the step shown, and that
      step's own snapshot. */
  lemma PeeksOnlyLook(w: World, s: System, k: nat, id: Id, actions: seq<Action>, choice: Choice)
    requires Inv(w, s) && k < |s.clients| && s.clients[k] == Fetch(id, false) && After(w, s, actions).Some?
    ensures var t := After(w, s, actions).value;
            && k < |t.clients|
            && (forall i <- t.served :: forall step | 0 <= step < |t.served[i]| :: t.served[i][step].winner != k)
            && (var u := Next(w, t, k, choice); u.store == t.store && u.served == t.served && u.filed == t.filed)
            && match t.clients[k]
               case Done(Answer(x, step, snap)) =>
                 && x.id == id && x.cursor == step
                 && id in t.created && x.params == t.created[id] && IsPriced(w, t.created[id], step, snap)
               case _ => true
  {
    NewcomersWonNothing(w, s, k);
    RunReads(w, s, k, id, false, actions);
    RunKeepsInv(w, s, actions);
    var t := After(w, s, actions).value;
    PeeksDoNotCommit(w, t.clients[k], id);
    ReadingStepsWriteNothing(w, t, k, choice);
    hide Next;
    if t.clients[k].Done? && t.clients[k].outcome.Answer? { AnswerIsOfTheRead(w, t, k, id, false); }
  }

  lemma AnswerIsOfTheRead(w: World, t: System, k: nat, id: Id, advance: bool)
    requires Inv(w, t) && k < |t.clients| && Reads(w, t.clients[k], id, advance)
    requires t.clients[k].Done? && t.clients[k].outcome.Answer?
    ensures var o := t.clients[k].outcome;
            && o.x.id == id && id in t.created && o.x.params == t.created[id]
            && IsPriced(w, t.created[id], o.step, o.snap)
            && o.x.cursor == (if advance then o.step + 1 else o.step)
            && (advance ==> id in t.served && o.step < |t.served[id]| && t.served[id][o.step] == Entry(k, o.snap))
            && (advance ==> o.x.state == if o.x.cursor == o.x.total then Completed else InProgress)
  {
    assert ClientOk(w, t, k, t.clients[k]);
    hide StoreOk, CachesOk, ClientsOk, FlightsOk, FiledOk, Pure;
  }

  /** And an advance, if it is answered, took exactly the step it answers with:
      the document it shows is one past it, and the log has that step, with that
      snapshot, as this request's. */
  lemma AdvancesTakeTheirStep(w: World, s: System, k: nat, id: Id, actions: seq<Action>)
    requires Inv(w, s) && k < |s.clients| && s.clients[k] == Fetch(id, true) && After(w, s, actions).Some?
    ensures var t := After(w, s, actions).value;
            && k < |t.clients|
            && match t.clients[k]
               case Done(Answer(x, step, snap)) =>
                 && x.id == id && x.cursor == step + 1
                 && x.state == (if x.cursor == x.total then Completed else InProgress)
                 && id in t.served && step < |t.served[id]| && t.served[id][step] == Entry(k, snap)
                 && id in t.created && x.params == t.created[id] && IsPriced(w, t.created[id], step, snap)
               case _ => true
  {
    RunReads(w, s, k, id, true, actions);
    RunKeepsInv(w, s, actions);
    var t := After(w, s, actions).value;
    if t.clients[k].Done? && t.clients[k].outcome.Answer? { AnswerIsOfTheRead(w, t, k, id, true); }
  }

  // ---- what a committed advance leaves behind

  /** A committed advance files the very step it served, if the queue admits it,
      and the last step of a simulation sends its caches off. */
  lemma CommitsAreFiled(w: World, s: System, k: nat, choice: Choice)
    requires Inv(w, s) && k < |s.clients| && s.clients[k].Committed?
    ensures var x, snap := s.clients[k].x, s.clients[k].snap;
            var step := x.cursor - 1;
            var t := Next(w, s, k, choice);
            && x.cursor >= 1 && step < |Log(s, x.id)| && Log(s, x.id)[step] == Entry(k, snap)
            && t.filed == (if choice.admit then s.filed + [(x.id, step)] else s.filed)
            && t == Move(s, k, if x.cursor == x.total then EvictTape([x.id], Answer(x, step, snap))
                               else Done(Answer(x, step, snap))).(filed := t.filed)
  {
    assert ClientOk(w, s, k, s.clients[k]);
    hide StoreOk, CachesOk, ClientsOk, FlightsOk, FiledOk, IsPure;
  }

  /** What is cached is used, and what is found is cached. */
  lemma CachesAreUsed(w: World, s: System, k: nat, choice: Choice)
    requires k < |s.clients|
    ensures var t := Next(w, s, k, choice);
            match s.clients[k]
            case LookSnapshot(job) =>
              var key := (job.x.id, job.x.cursor);
              key in s.snaps ==>
                t == Move(s, k, if job.advance then Commit(job, s.snaps[key])
                                else Done(Answer(job.x, job.x.cursor, s.snaps[key])))
            case LookTape(job) => job.x.id in s.tapes ==> t == Move(s, k, Price(job, s.tapes[job.x.id]))
            case CacheSnapshot(job, snap) =>
              var key := (job.x.id, job.x.cursor);
              choice.admit ==> key in t.snaps && t.snaps[key] == snap
            case Building(job, _) =>
              w.build(job.x.params).Ok? ==>
                job.x.id in t.tapes && t.tapes[job.x.id] == w.build(job.x.params).value
            case _ => true
  {
    hide Load, Join, Receive, Unlist, Publish, PriceSnapshot, Save, File, DropTape, DropSnapshots, Delete, Reap;
  }

  /** A build whose request was dropped still files its tape when it finishes. */
  lemma AbandonedBuildsStillFile(w: World, s: System, i: nat, displaced: set<Id>)
    requires Enabled(w, s, FinishDetached(i, displaced))
    ensures var t, id := Apply(w, s, FinishDetached(i, displaced)), s.detached[i];
            && t == s.(tapes := t.tapes, detached := s.detached[..i] + s.detached[i + 1..])
            && (w.build(s.created[id]).Ok? ==> id in t.tapes && t.tapes[id] == w.build(s.created[id]).value)
            && (w.build(s.created[id]).Err? ==> t.tapes == s.tapes)
  {
  }

  /** An eviction takes its list one simulation at a time: its tape, then all of
      its snapshots and no others, then the next. */
  lemma EvictionsTakeTheirList(w: World, s: System, k: nat, choice: Choice)
    requires k < |s.clients|
    ensures var t := Next(w, s, k, choice);
            match s.clients[k]
            case EvictTape(ids, o) =>
              ids != [] ==> t == Move(s, k, EvictSnapshots(ids, o)).(tapes := s.tapes - {ids[0]})
            case EvictSnapshots(ids, o) =>
              ids != [] ==>
                && t == Move(s, k, if |ids| == 1 then Done(o) else EvictTape(ids[1..], o)).(snaps := t.snaps)
                && (forall key :: key in t.snaps <==> key in s.snaps && key.0 != ids[0])
                && (forall key <- t.snaps :: t.snaps[key] == s.snaps[key])
            case _ => true
  {
    hide Load, ReadSnapshot, ReadTape, Join, Receive, Build, Unlist, Publish, PriceSnapshot, Store, Save, File,
      Delete, Reap;
  }

  // ---- deletions

  /** What is not stored does not come back. */
  lemma ActionKeepsUnstored(w: World, s: System, a: Action, id: Id)
    requires Enabled(w, s, a) && id in s.created && id !in s.store
    ensures id in Apply(w, s, a).created && id !in Apply(w, s, a).store
  {
    if a.Step? {
      StepIsLocal(w, s, a.k, a.choice);
      StepKeepsUnstored(w, s, a.k, a.choice, id);
      hide Next, CanStep;
    } else {
      hide Filed;
    }
  }

  lemma StepKeepsUnstored(w: World, s: System, k: nat, choice: Choice, id: Id)
    requires k < |s.clients| && id !in s.store
    ensures id !in Next(w, s, k, choice).store
  {
    match s.clients[k]
    case Commit(job, _) =>
    case Committed(_, _) =>
    case Remove(_) =>
    case Sweep =>
    case _ =>
      ReadingStepsWriteNothing(w, s, k, choice);
      hide Next;
  }

  lemma {:induction false} RunKeepsUnstored(w: World, s: System, actions: seq<Action>, id: Id)
    requires id in s.created && id !in s.store && After(w, s, actions).Some?
    ensures id !in After(w, s, actions).value.store
    decreases |actions|
  {
    hide Apply, Enabled;
    if actions != [] {
      ActionKeepsUnstored(w, s, actions[0], id);
      RunKeepsUnstored(w, Apply(w, s, actions[0]), actions[1..], id);
    }
  }

  /** The ids a request takes out of the store in its one step there. */
  function Targets(c: Client, choice: Choice): set<Id> {
    match c
    case Remove(id) => {id}
    case Sweep => set id | id in choice.expired
    case _ => {}
  }

  /** Where a deletion stands once it has deleted. */
  predicate Deletes(c: Client, o: Outcome) {
    c.Dropped? || ((c.EvictTape? || c.EvictSnapshots? || c.Done?) && c.outcome == o)
  }

  lemma ActionDeletes(w: World, s: System, k: nat, a: Action, o: Outcome)
    requires Enabled(w, s, a) && k < |s.clients| && Deletes(s.clients[k], o)
    ensures k < |Apply(w, s, a).clients| && Deletes(Apply(w, s, a).clients[k], o)
  {
    if s.clients[k].Done? || s.clients[k].Dropped? {
      OverIsOver(w, s, k, a);
      hide Apply, Enabled;
    } else if a.Step? && a.k == k {
      var out := EvictFrame(w, s, k, a.choice);
      EvictionsTakeTheirList(w, s, k, a.choice);
      hide CanStep, Without;
    } else {
      OthersLeaveWaiters(w, s, k, a);
      hide Apply, Enabled;
    }
  }

  lemma {:induction false} RunDeletes(w: World, s: System, k: nat, actions: seq<Action>, o: Outcome)
    requires k < |s.clients| && Deletes(s.clients[k], o) && After(w, s, actions).Some?
    ensures k < |After(w, s, actions).value.clients| && Deletes(After(w, s, actions).value.clients[k], o)
    decreases |actions|
  {
    hide Apply, Enabled, Deletes;
    if actions != [] {
      ActionDeletes(w, s, k, actions[0], o);
      RunDeletes(w, Apply(w, s, actions[0]), k, actions[1..], o);
    }
  }

  /** A delete or sweep takes exactly its targets out of the store and nothing
      else; whatever was created of them stays out in every continuation; and the
      request is answered with the truth about what it found. */
  lemma DeletedStaysDeleted(w: World, s: System, k: nat, choice: Choice, actions: seq<Action>, id: Id)
    requires k < |s.clients| && (s.clients[k].Remove? || s.clients[k].Sweep?)
    requires After(w, Next(w, s, k, choice), actions).Some?
    ensures var t := After(w, Next(w, s, k, choice), actions).value;
            && Next(w, s, k, choice).store == s.store - Targets(s.clients[k], choice)
            && (id in Targets(s.clients[k], choice) && id in s.created ==> id !in t.store)
            && k < |t.clients|
            && (t.clients[k].Done? ==>
                  t.clients[k].outcome ==
                  if s.clients[k].Remove? then Deleted(s.clients[k].id in s.store) else Swept(choice.expired))
  {
    var t := Next(w, s, k, choice);
    var o := if s.clients[k].Remove? then Deleted(s.clients[k].id in s.store) else Swept(choice.expired);
    StepIsLocal(w, s, k, choice);
    RemovalStep(w, s, k, choice);
    hide Next;
    if id in Targets(s.clients[k], choice) && id in s.created { RunKeepsUnstored(w, t, actions, id); }
    RunDeletes(w, t, k, actions, o);
  }

  lemma RemovalStep(w: World, s: System, k: nat, choice: Choice)
    requires k < |s.clients| && (s.clients[k].Remove? || s.clients[k].Sweep?)
    ensures var t := Next(w, s, k, choice);
            && t.store == s.store - Targets(s.clients[k], choice)
            && k < |t.clients|
            && Deletes(t.clients[k],
                 if s.clients[k].Remove? then Deleted(s.clients[k].id in s.store) else Swept(choice.expired))
  {
  }

  // ---- how long a request takes

  /** How many steps of its own a read or delete still has before it ends. */
  function ToGo(c: Client): nat {
    match c
    case Fetch(_, _) => 16
    case LookSnapshot(_) => 15
    case LookTape(_) => 14
    case Claim(_) => 13
    case Waiting(_, _) => 12
    case Building(_, _) => 11
    case Built(_, _, _) => 10
    case Unlisted(_, _, _) => 9
    case Price(_, _) => 8
    case CacheSnapshot(_, _) => 7
    case Commit(_, _) => 6
    case Committed(_, _) => 5
    case Remove(_) => 5
    case EvictTape(ids, _) => 2 * |ids| + 2
    case EvictSnapshots(ids, _) => 2 * |ids| + 1
    case Sweep => 0
    case Done(_) => 0
    case Dropped => 0
  }

  /** Client `k` has fewer than `n` steps to go. */
  predicate Below(t: System, k: nat, n: nat) {
    k < |t.clients| && ToGo(t.clients[k]) < n && !t.clients[k].Sweep?
  }

  lemma LoadLeadsOn(s: System, k: nat, id: Id, advance: bool)
    requires k < |s.clients|
    ensures Below(Load(s, k, id, advance), k, 16)
  {
    hide RejectTerminal, Stays, Quiet;
  }

  lemma LooksLeadOn(s: System, k: nat, job: Job)
    requires k < |s.clients|
    ensures Below(ReadSnapshot(s, k, job), k, 15) && Below(ReadTape(s, k, job), k, 14) && Below(Join(s, k, job), k, 13)
  {
    hide Stays, Quiet;
  }

  lemma FlightsLeadOn(w: World, s: System, k: nat, job: Job, owned: Option<nat>, ch: nat, displaced: set<Id>,
      result: Result<Tape, string>)
    requires k < |s.clients|
    ensures Below(Build(w, s, k, job, owned, displaced), k, 11) && Below(Unlist(s, k, job, owned, result), k, 10)
    ensures ch < |s.channels| ==> Below(Publish(s, k, job, ch, result), k, 9)
  {
    hide Filed, Stays, Quiet;
  }

  lemma PriceLeadsOn(w: World, s: System, k: nat, job: Job, tape: Tape)
    requires k < |s.clients|
    ensures Below(PriceSnapshot(w, s, k, job, tape), k, 8)
  {
    hide Stays, Quiet;
  }

  lemma StoreLeadsOn(s: System, k: nat, job: Job, snap: Snap, choice: Choice)
    requires k < |s.clients|
    ensures Below(Store(s, k, job, snap, choice), k, 7)
  {
    hide Stays, Quiet;
  }

  lemma SaveLeadsOn(w: World, s: System, k: nat, job: Job, snap: Snap)
    requires k < |s.clients|
    ensures Below(Save(w, s, k, job, snap), k, 6)
  {
    hide Verdict, Log, Stays, Quiet;
  }

  lemma FileLeadsOn(s: System, k: nat, x: Simulation, snap: Snap, admit: bool)
    requires k < |s.clients|
    ensures Below(File(s, k, x, snap, admit), k, 5)
  {
    hide Stays, Quiet;
  }

  lemma EvictionsLeadOn(s: System, k: nat, ids: seq<Id>, o: Outcome)
    requires k < |s.clients|
    ensures Below(DropTape(s, k, ids, o), k, 2 * |ids| + 2) && Below(DropSnapshots(s, k, ids, o), k, 2 * |ids| + 1)
  {
    hide Without, Stays, Quiet;
  }

  lemma DeleteLeadsOn(s: System, k: nat, id: Id)
    requires k < |s.clients|
    ensures Below(Delete(s, k, id), k, 5)
  {
    hide Stays, Quiet;
  }

  lemma SearchLeadsOn(w: World, s: System, k: nat, choice: Choice)
    requires Inv(w, s) && k < |s.clients| && CanStep(w, s, k, choice) && Searching(s.clients[k])
    ensures Below(Next(w, s, k, choice), k, ToGo(s.clients[k]))
  {
    assert FlightOk(s, k, s.clients[k]);
    assert s.clients[k].Unlisted? ==> s.clients[k].sender < |s.channels|;
    hide Inv, FlightOk, CanStep, Below, Stays, Quiet, ReadSnapshot, ReadTape, Join, Receive, Build, Unlist, Publish;
    match s.clients[k]
    case LookSnapshot(job) => LooksLeadOn(s, k, job);
    case LookTape(job) => LooksLeadOn(s, k, job);
    case Claim(job) => LooksLeadOn(s, k, job);
    case Waiting(_, _) => ReceiveLeadsOn(w, s, k, choice);
    case Building(job, owned) => FlightsLeadOn(w, s, k, job, owned, 0, choice.tapes, Err(""));
    case Built(job, owned, result) => FlightsLeadOn(w, s, k, job, owned, 0, {}, result);
    case Unlisted(job, ch, result) => FlightsLeadOn(w, s, k, job, None, ch, {}, result);
  }

  lemma RestLeadsOn(w: World, s: System, k: nat, choice: Choice)
    requires k < |s.clients| && CanStep(w, s, k, choice) && !s.clients[k].Sweep? && !Searching(s.clients[k])
    ensures Below(Next(w, s, k, choice), k, ToGo(s.clients[k]))
  {
    hide Below, Stays, Quiet, Load, PriceSnapshot, Store, Save, File, DropTape, DropSnapshots, Delete;
    match s.clients[k]
    case Fetch(id, advance) => LoadLeadsOn(s, k, id, advance);
    case Price(job, tape) => PriceLeadsOn(w, s, k, job, tape);
    case CacheSnapshot(job, snap) => StoreLeadsOn(s, k, job, snap, choice);
    case Commit(job, snap) => SaveLeadsOn(w, s, k, job, snap);
    case Committed(x, snap) => FileLeadsOn(s, k, x, snap, choice.admit);
    case EvictTape(ids, o) => EvictionsLeadOn(s, k, ids, o);
    case EvictSnapshots(ids, o) => EvictionsLeadOn(s, k, ids, o);
    case Remove(id) => DeleteLeadsOn(s, k, id);
  }

  lemma StepsLeadOn(w: World, s: System, k: nat, choice: Choice)
    requires Inv(w, s) && k < |s.clients| && CanStep(w, s, k, choice) && !s.clients[k].Sweep?
    ensures Below(Next(w, s, k, choice), k, ToGo(s.clients[k]))
  {
    hide Inv, Next, CanStep, Below, ToGo;
    if Searching(s.clients[k]) {
      SearchLeadsOn(w, s, k, choice);
    } else {
      RestLeadsOn(w, s, k, choice);
    }
  }

  lemma ReceiveLeadsOn(w: World, s: System, k: nat, choice: Choice)
    requires Inv(w, s) && k < |s.clients| && s.clients[k].Waiting? && CanStep(w, s, k, choice)
    ensures Below(Next(w, s, k, choice), k, 12)
  {
    ReceiveIsPure(w, s, k, choice);
    StepIsLocal(w, s, k, choice);
    hide Inv, Next, CanStep, ClientOk;
  }

  /** In every interleaving a read or a delete takes at most sixteen steps of its
      own, */
  lemma {:induction false} RequestsEnd(w: World, s: System, k: nat, actions: seq<Action>)
    requires Inv(w, s) && k < |s.clients| && !s.clients[k].Sweep? && After(w, s, actions).Some?
    ensures k < |After(w, s, actions).value.clients|
    ensures Turns(actions, k) + ToGo(After(w, s, actions).value.clients[k]) <= ToGo(s.clients[k])
    decreases |actions|
  {
    hide Inv, Apply, Enabled, ToGo;
    if actions != [] {
      ActionKeepsInv(w, s, actions[0]);
      ActionLeadsOn(w, s, k, actions[0]);
      RequestsEnd(w, Apply(w, s, actions[0]), k, actions[1..]);
    }
  }

  lemma ActionLeadsOn(w: World, s: System, k: nat, a: Action)
    requires Inv(w, s) && k < |s.clients| && !s.clients[k].Sweep? && Enabled(w, s, a)
    ensures var t := Apply(w, s, a);
            && k < |t.clients| && !t.clients[k].Sweep?
            && ToGo(t.clients[k]) + (if a.Step? && a.k == k then 1 else 0) <= ToGo(s.clients[k])
  {
    hide Inv, Next, CanStep;
    if a.Step? && a.k == k {
      StepsLeadOn(w, s, k, a.choice);
    } else {
      OthersLeaveWaiters(w, s, k, a);
      hide Apply, Enabled;
    }
  }

  /** and can take the next one unless it waits on a silent channel. */
  lemma OnlySilenceBlocks(w: World, s: System, k: nat) returns (choice: Choice)
    requires Inv(w, s) && w.capacity >= 1 && k < |s.clients|
    requires !s.clients[k].Done? && !s.clients[k].Dropped?
    ensures CanStep(w, s, k, choice) || (s.clients[k].Waiting? && Silent(s, s.clients[k].channel))
  {
    choice := Choice(s.tapes.Keys, {}, false, []);
    assert FlightOk(s, k, s.clients[k]) && |s.tapes| <= w.capacity;
    hide Inv, Filed, SenderHeld;
    if s.clients[k].Building? { RoomForOne(w, s.tapes, s.clients[k].job.x.id, s.clients[k].job.x.params); }
  }
}
