/** The v2 manager as a transition system: any number of requests, each taking
    one atomic action at a time (one lock, one atomic or one store call), over
    a compare-and-swap store, a single-flight build table and two caches that
    may lose any entry at any moment. */
module SimulationProtocol {
  import opened Results
  import opened SimulationModel

  /** A read under way: the document it loaded, and whether it will advance. */
  datatype Job = Job(x: Simulation, advance: bool)

  datatype Outcome =
    | Answer(x: Simulation, step: nat, snap: Snap)
    | Deleted(found: bool)
    | Swept(ids: seq<Id>)
    | Failed(failure: Failure)

  /** Where one request is. */
  datatype Client =
    | Fetch(id: Id, advance: bool)
    | LookSnapshot(job: Job)
    | LookTape(job: Job)
    | Claim(job: Job)
    | Waiting(job: Job, channel: nat)
    | Building(job: Job, owned: Option<nat>)
    | Built(job: Job, owned: Option<nat>, result: Result<Tape, string>)
    | Unlisted(job: Job, sender: nat, result: Result<Tape, string>)
    | Price(job: Job, tape: Tape)
    | CacheSnapshot(job: Job, snap: Snap)
    | Commit(job: Job, snap: Snap)
    | Committed(x: Simulation, snap: Snap)
    | EvictTape(ids: seq<Id>, outcome: Outcome)
    | EvictSnapshots(ids: seq<Id>, outcome: Outcome)
    | Remove(id: Id)
    | Sweep
    | Done(outcome: Outcome)
    | Dropped

  /** A broadcast channel; `owner` is the request that opened it. */
  datatype Channel = Channel(id: Id, owner: nat, message: Option<Result<Tape, string>>)

  /** One committed advance: the request that made it and what it served. */
  datatype Entry = Entry(winner: nat, snap: Snap)

  /** `created`, `served` and `filed` are history; the rest is the service. */
  datatype System = System(
    store: map<Id, Simulation>,
    tapes: map<Id, Tape>,
    snaps: map<(Id, nat), Snap>,
    builds: map<Id, nat>,
    channels: seq<Channel>,
    detached: seq<Id>,
    clients: seq<Client>,
    created: map<Id, Params>,
    served: map<Id, seq<Entry>>,
    filed: seq<(Id, nat)>)

  /** What the outside decides about a step: which cache entries an insertion
      displaces, whether an entry is admitted at all, what the store expires. */
  datatype Choice = Choice(tapes: set<Id>, snaps: set<(Id, nat)>, admit: bool, expired: seq<Id>)

  datatype Action =
    | Create(id: Id, params: Params)
    | Arrive(request: Client)
    | Step(k: nat, choice: Choice)
    | Drop(k: nat)
    | FinishDetached(i: nat, tapes: set<Id>)
    | LoseTapes(tapes: set<Id>)
    | LoseSnapshots(snaps: set<(Id, nat)>)
    | Expire(ids: set<Id>)

  function Initial(): System {
    System(map[], map[], map[], map[], [], [], [], map[], map[], [])
  }

  /** What a request does once its tape is known. */
  function Settle(job: Job, result: Result<Tape, string>): Client {
    match result
    case Ok(tape) => Price(job, tape)
    case Err(reason) => Done(Failed(Simulator(reason)))
  }

  function Proceed(job: Job, snap: Snap): Client {
    if job.advance then Commit(job, snap) else Done(Answer(job.x, job.x.cursor, snap))
  }

  function Evicting(ids: seq<Id>, outcome: Outcome): Client {
    if ids == [] then Done(outcome) else EvictTape(ids, outcome)
  }

  function Move(s: System, k: nat, c: Client): System
    requires k < |s.clients|
  {
    s.(clients := s.clients[k := c])
  }

  predicate OnlyMoves(s: System, t: System, k: nat) {
    |t.clients| == |s.clients| && forall j | 0 <= j < |s.clients| && j != k :: t.clients[j] == s.clients[j]
  }

  /** Only client `k` moves, it is not dropped, no simulation is created, and the
      builds that run on their own keep running. */
  predicate Stays(s: System, t: System, k: nat) {
    && k < |s.clients|
    && OnlyMoves(s, t, k)
    && (t.clients[k].Dropped? ==> s.clients[k].Dropped?)
    && t.created == s.created
    && t.detached == s.detached
  }

  /** `Stays`, with the build table and its channels as they were. */
  predicate Quiet(s: System, t: System, k: nat) {
    Stays(s, t, k) && t.builds == s.builds && t.channels == s.channels
  }

  /** The tape cache after filing `id`, with `displaced` pushed out. */
  function Filed(w: World, tapes: map<Id, Tape>, id: Id, params: Params, displaced: set<Id>): map<Id, Tape> {
    match w.build(params)
    case Ok(tape) => (tapes - (displaced + {id}))[id := tape]
    case Err(_) => tapes
  }

  /** Whether anyone can still send on a channel. */
  ghost predicate SenderHeld(s: System, ch: nat) {
    || ch in s.builds.Values
    || exists k | 0 <= k < |s.clients| :: s.clients[k].Unlisted? && s.clients[k].sender == ch
  }

  /** Whether client `k` can act now. */
  ghost predicate CanStep(w: World, s: System, k: nat, choice: Choice)
    requires k < |s.clients|
  {
    match s.clients[k]
    case Done(_) => false
    case Dropped => false
    case Waiting(_, ch) => ch < |s.channels| && (s.channels[ch].message.Some? || !SenderHeld(s, ch))
    case Building(job, _) => |Filed(w, s.tapes, job.x.id, job.x.params, choice.tapes)| <= w.capacity
    case Unlisted(_, ch, _) => ch < |s.channels|
    case Sweep => forall id <- choice.expired :: id in s.store
    case _ => true
  }

  /** The saving half of an advance: the document moved on, then validated,
      found, and compared with the revision that was read. */
  function Verdict(w: World, s: System, x: Simulation): Result<Simulation, Failure> {
    var next :- Advanced(x);
    if !next.Validate(w) then Err(Invalid)
    else if next.id !in s.store then Err(NotFound)
    else if s.store[next.id].version != x.version then Err(Conflict)
    else Ok(next)
  }

  function Save(w: World, s: System, k: nat, job: Job, snap: Snap): (t: System)
    requires k < |s.clients|
    ensures Quiet(s, t, k)
  {
    match Verdict(w, s, job.x)
    case Err(failure) => Move(s, k, Done(Failed(failure)))
    case Ok(next) =>
      Move(s, k, Committed(next, snap)).(
      store := s.store[next.id := next],
      served := s.served[next.id := Log(s, next.id) + [Entry(k, snap)]])
  }

  function Log(s: System, id: Id): seq<Entry> {
    if id in s.served then s.served[id] else []
  }

  /** Loads the document and rejects it if it can serve nothing more. */
  function Load(s: System, k: nat, id: Id, advance: bool): (t: System)
    requires k < |s.clients|
    ensures Quiet(s, t, k)
  {
    if id !in s.store then Move(s, k, Done(Failed(NotFound)))
    else
      match RejectTerminal(s.store[id])
      case Err(failure) => Move(s, k, Done(Failed(failure)))
      case Ok(_) => Move(s, k, LookSnapshot(Job(s.store[id], advance)))
  }

  /** A cached snapshot answers at once. */
  function ReadSnapshot(s: System, k: nat, job: Job): (t: System)
    requires k < |s.clients|
    ensures Quiet(s, t, k)
  {
    var key := (job.x.id, job.x.cursor);
    Move(s, k, if key in s.snaps then Proceed(job, s.snaps[key]) else LookTape(job))
  }

  function ReadTape(s: System, k: nat, job: Job): (t: System)
    requires k < |s.clients|
    ensures Quiet(s, t, k)
  {
    Move(s, k, if job.x.id in s.tapes then Price(job, s.tapes[job.x.id]) else Claim(job))
  }

  /** Joins the build under way for the simulation, or becomes its owner. */
  function Join(s: System, k: nat, job: Job): (t: System)
    requires k < |s.clients|
    ensures Stays(s, t, k) && s.channels <= t.channels
    ensures t.builds == s.builds || (job.x.id !in s.builds && t.builds == s.builds[job.x.id := |s.channels|])
  {
    if job.x.id in s.builds then Move(s, k, Waiting(job, s.builds[job.x.id]))
    else
      Move(s, k, Building(job, Some(|s.channels|))).(
      builds := s.builds[job.x.id := |s.channels|],
      channels := s.channels + [Channel(job.x.id, k, None)])
  }

  /** Takes the message off the channel, or builds after all if every sender is gone. */
  function Receive(s: System, k: nat, job: Job, ch: nat): (t: System)
    requires k < |s.clients|
    ensures Quiet(s, t, k)
  {
    if ch >= |s.channels| || s.channels[ch].message.None? then Move(s, k, Building(job, None))
    else
      match s.channels[ch].message.value
      case Ok(tape) => Move(s, k, Price(job, tape))
      case Err(reason) => Move(s, k, Done(Failed(Internal(reason))))
  }

  /** The blocking task: it builds, and files what it built itself. */
  function Build(w: World, s: System, k: nat, job: Job, owned: Option<nat>, displaced: set<Id>): (t: System)
    requires k < |s.clients|
    ensures Quiet(s, t, k)
  {
    Move(s, k, Built(job, owned, w.build(job.x.params))).(
    tapes := Filed(w, s.tapes, job.x.id, job.x.params, displaced))
  }

  /** Removes the build from the table; its sender now belongs to client `k`. */
  function Unlist(s: System, k: nat, job: Job, owned: Option<nat>, result: Result<Tape, string>): (t: System)
    requires k < |s.clients|
    ensures Stays(s, t, k) && t.channels == s.channels
    ensures t.builds == s.builds || t.builds == s.builds - {job.x.id}
  {
    if owned.None? || job.x.id !in s.builds then Move(s, k, Settle(job, result))
    else Move(s, k, Unlisted(job, s.builds[job.x.id], result)).(builds := s.builds - {job.x.id})
  }

  function Publish(s: System, k: nat, job: Job, ch: nat, result: Result<Tape, string>): (t: System)
    requires k < |s.clients|
    ensures Stays(s, t, k) && t.builds == s.builds && |t.channels| == |s.channels|
    ensures forall c | 0 <= c < |s.channels| :: t.channels[c].owner == s.channels[c].owner
    ensures forall c | 0 <= c < |s.channels| && c != ch :: t.channels[c] == s.channels[c]
  {
    if ch >= |s.channels| then s
    else Move(s, k, Settle(job, result)).(channels := s.channels[ch := s.channels[ch].(message := Some(result))])
  }

  function PriceSnapshot(w: World, s: System, k: nat, job: Job, tape: Tape): (t: System)
    requires k < |s.clients|
    ensures Quiet(s, t, k)
  {
    match w.snap(job.x.params, tape, job.x.cursor)
    case Err(reason) => Move(s, k, Done(Failed(Simulator(reason))))
    case Ok(snap) => Move(s, k, CacheSnapshot(job, snap))
  }

  function Store(s: System, k: nat, job: Job, snap: Snap, choice: Choice): (t: System)
    requires k < |s.clients|
    ensures Quiet(s, t, k)
  {
    var key := (job.x.id, job.x.cursor);
    var rest := s.snaps - (choice.snaps + {key});
    Move(s, k, Proceed(job, snap)).(snaps := if choice.admit then rest[key := snap] else rest)
  }

  /** Files the step a commit served, unless the queue is full, and drops the
      caches of a simulation that is over. */
  function File(s: System, k: nat, x: Simulation, snap: Snap, admit: bool): (t: System)
    requires k < |s.clients|
    ensures Quiet(s, t, k)
  {
    var step := if x.cursor == 0 then 0 else x.cursor - 1;
    var outcome := Answer(x, step, snap);
    Move(s, k, if x.state == Completed then EvictTape([x.id], outcome) else Done(outcome)).(
    filed := if admit then s.filed + [(x.id, step)] else s.filed)
  }

  function DropTape(s: System, k: nat, ids: seq<Id>, outcome: Outcome): (t: System)
    requires k < |s.clients|
    ensures Quiet(s, t, k)
  {
    Move(s, k, if ids == [] then Done(outcome) else EvictSnapshots(ids, outcome)).(
    tapes := if ids == [] then s.tapes else s.tapes - {ids[0]})
  }

  function Without(snaps: map<(Id, nat), Snap>, id: Id): map<(Id, nat), Snap> {
    map key | key in snaps && key.0 != id :: snaps[key]
  }

  function DropSnapshots(s: System, k: nat, ids: seq<Id>, outcome: Outcome): (t: System)
    requires k < |s.clients|
    ensures Quiet(s, t, k)
  {
    Move(s, k, if ids == [] then Done(outcome) else Evicting(ids[1..], outcome)).(
    snaps := if ids == [] then s.snaps else Without(s.snaps, ids[0]))
  }

  function Delete(s: System, k: nat, id: Id): (t: System)
    requires k < |s.clients|
    ensures Quiet(s, t, k)
  {
    Move(s, k, EvictTape([id], Deleted(id in s.store))).(store := s.store - {id})
  }

  function Reap(s: System, k: nat, ids: seq<Id>): (t: System)
    requires k < |s.clients|
    ensures Quiet(s, t, k)
  {
    Move(s, k, Evicting(ids, Swept(ids))).(store := s.store - set id | id in ids)
  }

  /** One atomic action of client `k`. */
  function Next(w: World, s: System, k: nat, choice: Choice): System
    requires k < |s.clients|
  {
    match s.clients[k]
    case Fetch(id, advance) => Load(s, k, id, advance)
    case LookSnapshot(job) => ReadSnapshot(s, k, job)
    case LookTape(job) => ReadTape(s, k, job)
    case Claim(job) => Join(s, k, job)
    case Waiting(job, ch) => Receive(s, k, job, ch)
    case Building(job, owned) => Build(w, s, k, job, owned, choice.tapes)
    case Built(job, owned, result) => Unlist(s, k, job, owned, result)
    case Unlisted(job, ch, result) => Publish(s, k, job, ch, result)
    case Price(job, tape) => PriceSnapshot(w, s, k, job, tape)
    case CacheSnapshot(job, snap) => Store(s, k, job, snap, choice)
    case Commit(job, snap) => Save(w, s, k, job, snap)
    case Committed(x, snap) => File(s, k, x, snap, choice.admit)
    case EvictTape(ids, outcome) => DropTape(s, k, ids, outcome)
    case EvictSnapshots(ids, outcome) => DropSnapshots(s, k, ids, outcome)
    case Remove(id) => Delete(s, k, id)
    case Sweep => Reap(s, k, choice.expired)
    case Done(_) => s
    case Dropped => s
  }

  /** Requests a caller can make. */
  predicate IsRequest(c: Client) {
    c.Fetch? || c.Remove? || c.Sweep?
  }

  /** Requests suspended at an await, which is where a future can be dropped.
      A result that is ready but not yet polled counts as suspended. */
  predicate Droppable(c: Client) {
    || c.Fetch? || c.LookSnapshot? || c.Waiting? || c.Building? || c.Built?
    || c.Commit? || c.Committed? || c.Remove? || c.Sweep? || c.EvictTape?
  }

  ghost predicate Enabled(w: World, s: System, a: Action) {
    match a
    case Create(id, _) => id !in s.created
    case Arrive(request) => IsRequest(request)
    case Step(k, choice) => k < |s.clients| && CanStep(w, s, k, choice)
    case Drop(k) => k < |s.clients| && Droppable(s.clients[k])
    case FinishDetached(i, tapes) =>
      && i < |s.detached|
      && s.detached[i] in s.created
      && |Filed(w, s.tapes, s.detached[i], s.created[s.detached[i]], tapes)| <= w.capacity
    case LoseTapes(_) => true
    case LoseSnapshots(_) => true
    case Expire(_) => true
  }

  /** The effect of an action. A build cannot be cancelled, so a request dropped
      while one runs leaves it to finish on its own; nothing else remembers the
      request, not even the build table. */
  function Apply(w: World, s: System, a: Action): System {
    match a
    case Create(id, params) =>
      var x := New(w, id, params);
      if !x.Validate(w) then s
      else s.(store := s.store[id := x], created := s.created[id := params], served := s.served[id := []])
    case Arrive(request) => s.(clients := s.clients + [request])
    case Step(k, choice) => if k < |s.clients| then Next(w, s, k, choice) else s
    case Drop(k) =>
      if k >= |s.clients| then s
      else
        var s' := Move(s, k, Dropped);
        if s.clients[k].Building? then s'.(detached := s.detached + [s.clients[k].job.x.id]) else s'
    case FinishDetached(i, tapes) =>
      if i >= |s.detached| || s.detached[i] !in s.created then s
      else
        s.(tapes := Filed(w, s.tapes, s.detached[i], s.created[s.detached[i]], tapes),
           detached := s.detached[..i] + s.detached[i + 1..])
    case LoseTapes(tapes) => s.(tapes := s.tapes - tapes)
    case LoseSnapshots(snaps) => s.(snaps := s.snaps - snaps)
    case Expire(ids) => s.(store := s.store - ids)
  }

  /** The state an interleaving leads to, if every action in it is possible. */
  ghost function After(w: World, s: System, actions: seq<Action>): Option<System>
    decreases |actions|
  {
    if actions == [] then Some(s)
    else if !Enabled(w, s, actions[0]) then None
    else After(w, Apply(w, s, actions[0]), actions[1..])
  }
}
