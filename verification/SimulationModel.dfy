/** The v2 simulation document: its lifecycle, its validation, and the one
    transition an advance makes. */
module SimulationModel {
  import opened Results

  const USIZE_MAX: nat := 0xFFFF_FFFF_FFFF_FFFF
  const U64_MAX: nat := 0xFFFF_FFFF_FFFF_FFFF

  type Id = nat

  /** What the service treats as opaque: effective parameters, factor tapes and
      priced snapshots. */
  type Params(==, !new)
  type Tape(==, !new)
  type Snap(==, !new)

  /** Everything a simulation's output is a function of. `build` and `snap` are
      pure; `capacity` bounds the tape cache. */
  datatype World = World(
    steps: Params -> nat,
    build: Params -> Result<Tape, string>,
    snap: (Params, Tape, nat) -> Result<Snap, string>,
    capacity: nat)

  datatype State = Initialized | InProgress | Modified | Reinitialized | Completed | Error

  datatype Simulation = Simulation(
    id: Id,
    params: Params,
    cursor: nat,
    total: nat,
    state: State,
    version: nat)
  {
    predicate IsComplete() {
      cursor >= total
    }

    /** Checks the lifecycle state against the cursor. */
    predicate ValidateState() {
      match state
      case Modified => false
      case Reinitialized => false
      case Error => false
      case Initialized => cursor == 0
      case Completed => cursor == total
      case InProgress => cursor != 0 && cursor < total
    }

    predicate Validate(w: World) {
      && 1 <= w.steps(params) <= USIZE_MAX
      && total == w.steps(params)
      && cursor <= total
      && ValidateState()
    }
  }

  datatype Failure =
    | NotFound
    | Gone
    | InvalidState
    | Invalid
    | Conflict
    | Simulator(reason: string)
    | Internal(reason: string)
    | CursorOverflow
    | VersionOverflow

  function New(w: World, id: Id, params: Params): Simulation {
    Simulation(id, params, 0, w.steps(params), Initialized, 0)
  }

  function RejectTerminal(x: Simulation): Result<(), Failure> {
    if x.state == Completed || x.IsComplete() then Err(Gone)
    else if x.state == Error then Err(InvalidState)
    else Ok(())
  }

  function BumpVersion(x: Simulation): Result<Simulation, Failure> {
    if x.version + 1 > U64_MAX then Err(VersionOverflow) else Ok(x.(version := x.version + 1))
  }

  /** The document an advance saves: the cursor one on, the state that follows
      from it, the revision bumped. */
  function Advanced(x: Simulation): Result<Simulation, Failure> {
    if x.cursor + 1 > USIZE_MAX then Err(CursorOverflow)
    else
      var moved := x.(cursor := x.cursor + 1);
      BumpVersion(moved.(state := if moved.IsComplete() then Completed else InProgress))
  }

  /** The snapshot of `params` at `step`: what a read would return if nothing
      were ever cached. */
  function Pure(w: World, params: Params, step: nat): Result<Snap, string> {
    var tape :- w.build(params);
    w.snap(params, tape, step)
  }

  /** The lifecycle state that belongs to a cursor. */
  function StateAt(cursor: nat, total: nat): State {
    if cursor == 0 then Initialized else if cursor < total then InProgress else Completed
  }

  /** A document the lifecycle can produce. */
  ghost predicate Lawful(w: World, x: Simulation) {
    && 1 <= x.total <= USIZE_MAX
    && x.total == w.steps(x.params)
    && x.cursor <= x.total
    && x.version == x.cursor
    && x.state == StateAt(x.cursor, x.total)
  }

  /** The document `k` advances after creation. */
  function Walked(w: World, id: Id, params: Params, k: nat): Result<Simulation, Failure> {
    if k == 0 then Ok(New(w, id, params))
    else
      var x :- Walked(w, id, params, k - 1);
      var _ :- RejectTerminal(x);
      Advanced(x)
  }

  /** An advance that is let through keeps the document lawful, and neither
      overflow it guards against can happen. */
  lemma AdvanceIsLawful(w: World, x: Simulation)
    requires Lawful(w, x)
    ensures RejectTerminal(x).Ok? <==> x.cursor < x.total
    ensures RejectTerminal(x).Err? ==> RejectTerminal(x).error == Gone
    ensures x.cursor < x.total ==>
              && Advanced(x).Ok? && Lawful(w, Advanced(x).value) && Advanced(x).value.Validate(w)
              && Advanced(x).value ==
                x.(cursor := x.cursor + 1, version := x.version + 1, state := StateAt(x.cursor + 1, x.total))
  {
  }

  /** The documents reachable by advancing are exactly those validation accepts
      whose revision is their cursor, and the walk ends at the horizon. */
  lemma {:induction false} WalkReachesAcceptedStates(w: World, id: Id, params: Params, k: nat)
    requires 1 <= w.steps(params) <= USIZE_MAX
    ensures Walked(w, id, params, k).Ok? <==> k <= w.steps(params)
    ensures k <= w.steps(params) ==>
              Walked(w, id, params, k) == Ok(Simulation(id, params, k, w.steps(params), StateAt(k, w.steps(params)), k))
  {
    if k > 0 {
      WalkReachesAcceptedStates(w, id, params, k - 1);
      if k - 1 <= w.steps(params) { AdvanceIsLawful(w, Walked(w, id, params, k - 1).value); }
    }
  }

  lemma AcceptedStatesAreWalked(w: World, x: Simulation)
    requires x.version == x.cursor
    ensures x.Validate(w) <==>
            1 <= w.steps(x.params) <= USIZE_MAX && Walked(w, x.id, x.params, x.cursor) == Ok(x)
  {
    if 1 <= w.steps(x.params) <= USIZE_MAX { WalkReachesAcceptedStates(w, x.id, x.params, x.cursor); }
  }
}
