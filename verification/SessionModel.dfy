/** The v1 session: its parameters, its lifecycle, and the transitions that
    update it in place. */
module SessionModel {
  import opened Results

  const U64_MAX: nat := 0xFFFF_FFFF_FFFF_FFFF

  type Id = nat
  type TimeFrame(==, !new)
  type Price(==, !new)
  type Shape(==, !new)

  /** Where the underlying path comes from. A historical source may still lack
      its prices, and even its symbol. */
  datatype Source =
    | Historical(timeframe: TimeFrame, prices: seq<Price>, symbol: Option<string>)
    | Synthetic(model: nat)

  /** `shape` stands for every parameter that selects no data. */
  datatype Parameters = Parameters(steps: nat, seed: nat, source: Source, shape: Shape)

  datatype State = Initialized | InProgress | Modified | Reinitialized | Completed | Error

  datatype SessionData = SessionData(id: Id, params: Parameters, cursor: nat, total: nat, state: State, version: nat)

  datatype Failure =
    | NotFound
    | AlreadyExists
    | Conflict
    | Finished
    | InvalidState
    | AllStepsServed
    | Simulator(reason: string)
    | VersionOverflow

  function New(id: Id, params: Parameters): SessionData {
    SessionData(id, params, 0, params.steps, Initialized, 0)
  }

  /** A session just restarted on new parameters. */
  function Restarted(s: SessionData, params: Parameters): SessionData {
    s.(params := params, cursor := 0, total := params.steps, state := State.Reinitialized)
  }

  /** A session one served snapshot further. */
  function Moved(s: SessionData): SessionData {
    s.(cursor := s.cursor + 1, state := if s.cursor + 1 == s.total then Completed else InProgress)
  }

  predicate Active(s: SessionData) {
    s.state != Completed && s.state != Error
  }

  /** The session a request works on: its own copy of the stored one. */
  class Session {
    const id: Id
    var params: Parameters
    var cursor: nat
    var total: nat
    var state: State
    var version: nat

    function Data(): SessionData
      reads this
    {
      SessionData(id, params, cursor, total, state, version)
    }

    constructor (s: SessionData)
      ensures Data() == s
    {
      id, params, cursor, total, state, version := s.id, s.params, s.cursor, s.total, s.state, s.version;
    }

    /** Moves the cursor on and follows it with the state. */
    method AdvanceStep() returns (r: Result<(), Failure>)
      modifies this
      ensures r.Ok? <==> old(cursor) < old(total)
      ensures r.Err? ==> r.error == AllStepsServed && Data() == old(Data())
      ensures r.Ok? ==>
                Data() == old(Data()).(cursor := old(cursor) + 1, state := state)
                && (old(cursor) + 1 == total ==> state == Completed)
                && (old(cursor) + 1 != total ==>
                      state == if old(state) == Initialized || old(state) == Modified then InProgress else old(state))
    {
      if cursor >= total { return Err(AllStepsServed); }
      cursor := cursor + 1;
      if cursor == total {
        state := Completed;
      } else if state == Initialized || state == Modified {
        state := InProgress;
      }
      r := Ok(());
    }

    /** Restarts the tape on new parameters. */
    method Reinitialize(newParams: Parameters)
      modifies this
      ensures Data() == Restarted(old(Data()), newParams)
    {
      total := newParams.steps;
      params := newParams;
      cursor := 0;
      state := State.Reinitialized;
    }

    method BumpVersion() returns (r: Result<(), Failure>)
      modifies this`version
      ensures r == if old(version) < U64_MAX then Ok(()) else Err(VersionOverflow)
      ensures version == if r.Ok? then old(version) + 1 else old(version)
    {
      if version + 1 > U64_MAX { return Err(VersionOverflow); }
      version := version + 1;
      r := Ok(());
    }
  }

  /** Takes a served session one step on, out of whichever state it was in; the
      two terminal states refuse. A session still short of its total always
      moves. */
  method AdvanceState(session: Session) returns (r: Result<(), Failure>)
    modifies session
    ensures r.Ok? <==> Active(old(session.Data())) && old(session.cursor) < old(session.total)
    ensures r.Ok? ==> session.Data() == Moved(old(session.Data()))
    ensures r.Err? && !Active(old(session.Data())) ==> r.error == InvalidState && session.Data() == old(session.Data())
  {
    match session.state {
      case Initialized =>
        session.state := InProgress;
        r := session.AdvanceStep();
      case InProgress =>
        r := session.AdvanceStep();
      case Modified =>
        session.state := InProgress;
        r := session.AdvanceStep();
      case Reinitialized =>
        session.state := InProgress;
        r := session.AdvanceStep();
      case Completed => r := Err(InvalidState);
      case Error => r := Err(InvalidState);
    }
  }
}
