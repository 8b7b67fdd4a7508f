/** The other half of the lifecycle: every document validation accepts is
    stored by some run. */
module SimulationReach {
  import opened Results
  import opened SimulationModel
  import opened SimulationProtocol
  import opened SimulationSafety
  import opened SimulationRuns

  lemma {:induction false} AfterExtends(w: World, s: System, actions: seq<Action>, a: Action)
    requires After(w, s, actions).Some? && Enabled(w, After(w, s, actions).value, a)
    ensures After(w, s, actions + [a]) == Some(Apply(w, After(w, s, actions).value, a))
    decreases |actions|
  {
    hide Enabled, Apply;
    if actions == [] {
      assert (actions + [a])[1..] == [];
    } else {
      assert (actions + [a])[1..] == actions[1..] + [a];
      AfterExtends(w, Apply(w, s, actions[0]), actions[1..], a);
    }
  }

  lemma ReachesNext(w: World, s: System, a: Action)
    requires Reachable(w, s) && Enabled(w, s, a)
    ensures Reachable(w, Apply(w, s, a))
  {
    var actions :| After(w, Initial(), actions) == Some(s);
    AfterExtends(w, Initial(), actions, a);
  }

  const NO_CHOICE := Choice({}, {}, false, [])

  /** `s` with one more request, standing at `c`. */
  function With(s: System, c: Client): System {
    s.(clients := s.clients + [c])
  }

  lemma StepReaches(w: World, s: System, c: Client, t: System)
    requires Reachable(w, With(s, c))
    requires CanStep(w, With(s, c), |s.clients|, NO_CHOICE)
    requires Next(w, With(s, c), |s.clients|, NO_CHOICE) == t
    ensures Reachable(w, t)
  {
    hide CanStep, Next;
    ReachesNext(w, With(s, c), Step(|s.clients|, NO_CHOICE));
  }

  /** A simulation stored at `x`, with nothing cached. */
  ghost predicate Bare(w: World, s: System, x: Simulation) {
    && Reachable(w, s)
    && x.id in s.store && s.store[x.id] == x
    && s.tapes == map[] && s.snaps == map[]
  }

  /** The same, with nothing being built either. */
  ghost predicate Cold(w: World, s: System, x: Simulation) {
    Bare(w, s, x) && s.builds == map[]
  }

  lemma ReachesClaim(w: World, s: System, x: Simulation)
    requires Bare(w, s, x) && Lawful(w, x) && x.cursor < x.total
    ensures Reachable(w, With(s, Claim(Job(x, true))))
  {
    var k := |s.clients|;
    var job := Job(x, true);
    ReachesNext(w, s, Arrive(Fetch(x.id, true)));
    AdvanceIsLawful(w, x);
    hide Reachable;
    assert Move(With(s, Fetch(x.id, true)), k, LookSnapshot(job)) == With(s, LookSnapshot(job));
    StepReaches(w, s, Fetch(x.id, true), With(s, LookSnapshot(job)));
    assert Move(With(s, LookSnapshot(job)), k, LookTape(job)) == With(s, LookTape(job));
    StepReaches(w, s, LookSnapshot(job), With(s, LookTape(job)));
    assert Move(With(s, LookTape(job)), k, Claim(job)) == With(s, Claim(job));
    StepReaches(w, s, LookTape(job), With(s, Claim(job)));
  }

  /** `s` after this request built and published the tape of `id`. */
  function Published(s: System, id: Id, tape: Tape): System {
    s.(tapes := map[id := tape], channels := s.channels + [Channel(id, |s.clients|, Some(Ok(tape)))])
  }

  lemma PublishPublishes(s: System, s3: System, k: nat, ch: nat, job: Job, tape: Tape)
    requires k == |s.clients| && ch == |s.channels| && s.builds == map[]
    requires s3 == s.(channels := s.channels + [Channel(job.x.id, k, None)], tapes := map[job.x.id := tape])
    ensures Publish(With(s3, Unlisted(job, ch, Ok(tape))), k, job, ch, Ok(tape)) ==
            With(Published(s, job.x.id, tape), Price(job, tape))
  {
  }

  /** `s` with a build of `id` under way for the request about to be added. */
  function Opened(s: System, id: Id): System {
    s.(builds := map[id := |s.channels|], channels := s.channels + [Channel(id, |s.clients|, None)])
  }

  lemma ReachesBuilding(w: World, s: System, x: Simulation)
    requires Cold(w, s, x) && Reachable(w, With(s, Claim(Job(x, true))))
    ensures Reachable(w, With(Opened(s, x.id), Building(Job(x, true), Some(|s.channels|))))
  {
    var job := Job(x, true);
    hide Reachable;
    assert Join(With(s, Claim(job)), |s.clients|, job) == With(Opened(s, x.id), Building(job, Some(|s.channels|)));
    StepReaches(w, s, Claim(job), With(Opened(s, x.id), Building(job, Some(|s.channels|))));
  }

  lemma ReachesBuilt(w: World, s: System, x: Simulation, tape: Tape)
    requires Cold(w, s, x) && w.capacity >= 1 && w.build(x.params) == Ok(tape)
    requires Reachable(w, With(s, Claim(Job(x, true))))
    ensures var t := Opened(s, x.id).(tapes := map[x.id := tape]);
            Reachable(w, With(t, Built(Job(x, true), Some(|s.channels|), Ok(tape))))
  {
    var s1, job, own := Opened(s, x.id), Job(x, true), Some(|s.channels|);
    ReachesBuilding(w, s, x);
    hide Reachable, Cold;
    assert s1.tapes == map[] && |s1.clients| == |s.clients|;
    hide Opened;
    assert Filed(w, s1.tapes, x.id, x.params, {}) == map[x.id := tape];
    var t := With(s1.(tapes := map[x.id := tape]), Built(job, own, Ok(tape)));
    assert Build(w, With(s1, Building(job, own)), |s.clients|, job, own, {}) == t;
    StepReaches(w, s1, Building(job, own), t);
  }

  lemma ReachesPrice(w: World, s: System, x: Simulation, tape: Tape)
    requires Cold(w, s, x) && w.capacity >= 1 && w.build(x.params) == Ok(tape)
    requires Reachable(w, With(s, Claim(Job(x, true))))
    ensures Reachable(w, With(Published(s, x.id, tape), Price(Job(x, true), tape)))
  {
    var k, ch, job := |s.clients|, |s.channels|, Job(x, true);
    ReachesBuilt(w, s, x, tape);
    var s3 := s.(channels := s.channels + [Channel(x.id, k, None)], tapes := map[x.id := tape]);
    var s2 := s3.(builds := map[x.id := ch]);
    hide Reachable, Published;
    assert Unlist(With(s2, Built(job, Some(ch), Ok(tape))), k, job, Some(ch), Ok(tape)) ==
      With(s3, Unlisted(job, ch, Ok(tape)));
    StepReaches(w, s2, Built(job, Some(ch), Ok(tape)), With(s3, Unlisted(job, ch, Ok(tape))));
    PublishPublishes(s, s3, k, ch, job, tape);
    StepReaches(w, s3, Unlisted(job, ch, Ok(tape)), With(Published(s, x.id, tape), Price(job, tape)));
  }

  lemma ReachesCommit(w: World, s: System, x: Simulation, tape: Tape, snap: Snap) returns (t: System)
    requires s.snaps == map[] && s.builds == map[] && x.id in s.store && s.store[x.id] == x && x.id in s.served
    requires Lawful(w, x) && x.cursor < x.total && w.snap(x.params, tape, x.cursor) == Ok(snap)
    requires Reachable(w, With(s, Price(Job(x, true), tape)))
    ensures Reachable(w, t) && t.store == s.store[x.id := Advanced(x).value] && t.snaps == map[] && t.builds == map[]
  {
    var k, job := |s.clients|, Job(x, true);
    hide Reachable;
    assert PriceSnapshot(w, With(s, Price(job, tape)), k, job, tape) == With(s, CacheSnapshot(job, snap));
    StepReaches(w, s, Price(job, tape), With(s, CacheSnapshot(job, snap)));
    assert s.snaps - {(x.id, x.cursor)} == map[];
    assert Store(With(s, CacheSnapshot(job, snap)), k, job, snap, NO_CHOICE) == With(s, Commit(job, snap));
    StepReaches(w, s, CacheSnapshot(job, snap), With(s, Commit(job, snap)));
    AdvanceIsLawful(w, x);
    t := Save(w, With(s, Commit(job, snap)), k, job, snap);
    StepReaches(w, s, Commit(job, snap), t);
  }

  /** One undisturbed advance moves the stored document one step on. */
  lemma OneAdvance(w: World, s: System, x: Simulation) returns (t: System)
    requires Cold(w, s, x) && Lawful(w, x) && x.cursor < x.total && w.capacity >= 1
    requires Pure(w, x.params, x.cursor).Ok?
    ensures Cold(w, t, Advanced(x).value)
  {
    var tape := w.build(x.params).value;
    ReachesClaim(w, s, x);
    ReachesPrice(w, s, x, tape);
    ReachableIsLawful(w, s);
    assert DocumentOk(w, s, x.id);
    hide Reachable, Inv;
    var u := ReachesCommit(w, Published(s, x.id, tape), x, tape, Pure(w, x.params, x.cursor).value);
    AdvanceIsLawful(w, x);
    ReachesNext(w, u, LoseTapes(u.tapes.Keys));
    t := Apply(w, u, LoseTapes(u.tapes.Keys));
    assert u.tapes - u.tapes.Keys == map[];
  }

  /** Whatever accepted cursor a simulation can have, some run stores it. */
  lemma {:induction false} EveryCursorIsReached(w: World, id: Id, params: Params, k: nat) returns (s: System)
    requires 1 <= w.steps(params) <= USIZE_MAX && w.capacity >= 1 && k <= w.steps(params)
    requires forall step | 0 <= step < k :: Pure(w, params, step).Ok?
    ensures Cold(w, s, Simulation(id, params, k, w.steps(params), StateAt(k, w.steps(params)), k))
  {
    if k == 0 {
      var a := Create(id, params);
      assert After(w, Initial(), []) == Some(Initial());
      ReachesNext(w, Initial(), a);
      s := Apply(w, Initial(), a);
    } else {
      var before := EveryCursorIsReached(w, id, params, k - 1);
      var x := Simulation(id, params, k - 1, w.steps(params), StateAt(k - 1, w.steps(params)), k - 1);
      AdvanceIsLawful(w, x);
      s := OneAdvance(w, before, x);
    }
  }

  /** A document of `params` is stored by some run exactly when validation
      accepts it at the revision its cursor says, provided every step prices. */
  lemma StoredIffAccepted(w: World, x: Simulation)
    requires w.capacity >= 1 && forall step | 0 <= step < w.steps(x.params) :: Pure(w, x.params, step).Ok?
    ensures (exists s :: Reachable(w, s) && x.id in s.store && s.store[x.id] == x) <==>
              (x.Validate(w) && x.version == x.cursor)
  {
    if x.Validate(w) && x.version == x.cursor {
      var s := EveryCursorIsReached(w, x.id, x.params, x.cursor);
      assert Reachable(w, s) && s.store[x.id] == x;
    }
    forall s | Reachable(w, s) && x.id in s.store && s.store[x.id] == x ensures x.Validate(w) && x.version == x.cursor {
      ReachableIsLawful(w, s);
      assert DocumentOk(w, s, x.id);
      AdvancesServeEachStepOnce(w, s, x.id);
    }
  }

  // ---- a build is orphaned

  /** At any cursor of a simulation that is neither cached nor being built: two
      requests come, the first claims the build and is dropped, and the second
      is left waiting on a channel nobody will ever publish on. */
  lemma ColdReadsCanBeOrphaned(w: World, s: System, x: Simulation) returns (t: System)
    requires Cold(w, s, x) && Lawful(w, x) && x.cursor < x.total
    ensures Reachable(w, t) && |t.clients| == |s.clients| + 2
    ensures Orphaned(t, |s.channels|) && t.channels[|s.channels|].id == x.id
    ensures t.clients[|s.clients| + 1] == Waiting(Job(x, true), |s.channels|) && Stuck(t, |s.clients| + 1, |s.channels|)
    ensures t.store == s.store
  {
    var k, ch, job := |s.clients|, |s.channels|, Job(x, true);
    ReachesClaim(w, s, x);
    ReachesBuilding(w, s, x);
    var s1 := With(Opened(s, x.id), Building(job, Some(ch)));
    ReachesClaim(w, s1, x);
    var s2 := With(s1, Waiting(job, ch));
    assert Join(With(s1, Claim(job)), k + 1, job) == s2;
    hide Reachable;
    StepReaches(w, s1, Claim(job), s2);
    assert s2.clients[k] == Building(job, Some(ch));
    ReachesNext(w, s2, Drop(k));
    t := Apply(w, s2, Drop(k));
    assert t.clients[k] == Dropped && t.channels[ch] == Channel(x.id, k, None);
  }

  /** So on every simulation some run leaves a request waiting for ever. */
  lemma OrphanIsReached(w: World, id: Id, params: Params) returns (s: System)
    requires 1 <= w.steps(params) <= USIZE_MAX
    ensures Reachable(w, s) && Orphaned(s, 0) && s.channels[0].id == id
    ensures |s.clients| == 2 && s.clients[1].Waiting? && Stuck(s, 1, 0)
    ensures id in s.store && s.store[id] == New(w, id, params)
  {
    var a := Create(id, params);
    assert After(w, Initial(), []) == Some(Initial());
    ReachesNext(w, Initial(), a);
    s := ColdReadsCanBeOrphaned(w, Apply(w, Initial(), a), New(w, id, params));
  }
}
