/** Merging dependency observations: higher sequences win, equal sequences that agree keep the newest time,
  * and equal sequences that disagree are a conflict. */
module Health {
  import opened Common

  datatype Status = Ready | Degraded | NotReady

  datatype Reason =
    | NoReason | Starting | Unavailable | TimedOut | Stale | Misconfigured | Authentication
    | ContractMismatch | InternalFailure | ObservationConflict

  datatype Requirement = Required | DegradedAllowed

  datatype Kind = Internal | External

  datatype Spec = Spec(kind: Kind, requirement: Requirement)

  datatype Observation = Observation(status: Status, reason: Reason, observedAt: int, sequence: nat)

  datatype Report = Report(name: int, spec: Spec, observation: Observation)

  datatype Liveness = Alive | Failed

  datatype Readiness = IsReady | IsDegraded | IsNotReady

  datatype ObservationResult = Applied | AppliedConflict | IgnoredDuplicate | IgnoredStale

  datatype HealthError = Undeclared | IdentityMismatch

  /** The declared dependencies and the latest merged observation of each. */
  datatype Board = Board(specs: map<int, Spec>, seen: map<int, Observation>)

  predicate Complete(board: Board) { board.seen.Keys == board.specs.Keys }

  function Max(x: int, y: int): int { if x < y then y else x }

  function Conflict(at: int, sequence: nat): Observation {
    Observation(NotReady, ObservationConflict, at, sequence)
  }

  /** The observation kept after `candidate` arrives on top of `current`. */
  function Merge(current: Observation, candidate: Observation): Observation {
    if candidate.sequence < current.sequence then current
    else if candidate.sequence > current.sequence then candidate
    else
      var at := Max(current.observedAt, candidate.observedAt);
      if current.status == candidate.status && current.reason == candidate.reason
      then Observation(current.status, current.reason, at, current.sequence)
      else Conflict(at, current.sequence)
  }

  function Verdict(current: Observation, candidate: Observation): ObservationResult {
    if candidate.sequence < current.sequence then IgnoredStale
    else if candidate.sequence > current.sequence then Applied
    else if current == candidate then IgnoredDuplicate
    else if Merge(current, candidate) == current then IgnoredStale
    else if current.status == candidate.status && current.reason == candidate.reason then Applied
    else AppliedConflict
  }

  function Update(board: Board, r: Report): (Board, Result<ObservationResult, HealthError>)
    requires Complete(board)
  {
    if r.name !in board.specs then (board, Err(Undeclared))
    else if r.spec != board.specs[r.name] then (board, Err(IdentityMismatch))
    else
      var current := board.seen[r.name];
      (board.(seen := board.seen[r.name := Merge(current, r.observation)]), Ok(Verdict(current, r.observation)))
  }

  function Opened(specs: map<int, Spec>, startedAt: int): Board {
    Board(specs, map name | name in specs :: Observation(NotReady, Starting, startedAt, 0))
  }

  /** The board after a run of reports. */
  function Run(specs: map<int, Spec>, startedAt: int, reports: seq<Report>): (b: Board)
    ensures Complete(b) && b.specs == specs
  {
    if reports == [] then Opened(specs, startedAt)
    else Update(Run(specs, startedAt, reports[..|reports| - 1]), reports[|reports| - 1]).0
  }

  ghost predicate SomeRequiredDown(board: Board)
    requires Complete(board)
  {
    exists name :: name in board.specs && board.seen[name].status.NotReady? && board.specs[name].requirement.Required?
  }

  ghost predicate AllReady(board: Board)
    requires Complete(board)
  {
    forall name :: name in board.specs ==> board.seen[name].status.Ready?
  }

  class HealthAggregator {
    const specs: map<int, Spec>
    var dependencies: map<int, Observation>
    var liveness: Liveness

    ghost predicate Valid()
      reads this
    {
      dependencies.Keys == specs.Keys
    }

    ghost function View(): Board
      reads this
    {
      Board(specs, dependencies)
    }

    constructor (specs: map<int, Spec>, startedAt: int)
      ensures Valid() && View() == Opened(specs, startedAt) && liveness == Alive
    {
      this.specs := specs;
      dependencies := map name | name in specs :: Observation(NotReady, Starting, startedAt, 0);
      liveness := Alive;
    }

    method Observe(r: Report) returns (result: Result<ObservationResult, HealthError>)
      requires Valid()
      modifies this`dependencies
      ensures Valid() && (View(), result) == Update(old(View()), r)
    {
      if r.name !in specs { return Err(Undeclared); }
      if r.spec != specs[r.name] { return Err(IdentityMismatch); }
      var current := dependencies[r.name];
      if r.observation.sequence < current.sequence {
        assert dependencies[r.name := current] == dependencies;
        return Ok(IgnoredStale);
      }
      if r.observation.sequence > current.sequence {
        dependencies := dependencies[r.name := r.observation];
        return Ok(Applied);
      }
      var resolved := ResolveEqualSequence(r.name, current, r.observation);
      return Ok(resolved);
    }

    method ResolveEqualSequence(
      name: int, current: Observation, candidate: Observation) returns (result: ObservationResult)
      requires Valid() && name in dependencies && dependencies[name] == current
      requires current.sequence == candidate.sequence
      modifies this`dependencies
      ensures dependencies == old(dependencies)[name := Merge(current, candidate)]
      ensures result == Verdict(current, candidate)
    {
      assert dependencies[name := current] == dependencies;
      if current == candidate { return IgnoredDuplicate; }
      var at := Max(current.observedAt, candidate.observedAt);
      if current.status == candidate.status && current.reason == candidate.reason {
        if at == current.observedAt { return IgnoredStale; }
        dependencies := dependencies[name := Observation(current.status, current.reason, at, current.sequence)];
        return Applied;
      }
      var conflict := Conflict(at, current.sequence);
      if current == conflict { return IgnoredStale; }
      dependencies := dependencies[name := conflict];
      return AppliedConflict;
    }

    /** Records the loss of a declared dependency. */
    method Remove(name: int, sequence: nat, at: int) returns (result: Result<ObservationResult, HealthError>)
      requires Valid()
      modifies this`dependencies
      ensures Valid()
      ensures name !in specs ==> result == Err(Undeclared) && dependencies == old(dependencies)
      ensures name in specs ==>
        && result.Ok?
        && var lost := Observation(NotReady, Unavailable, at, sequence);
           dependencies == old(dependencies)[name := Merge(old(dependencies)[name], lost)]
    {
      if name !in specs { return Err(Undeclared); }
      result := Observe(Report(name, specs[name], Observation(NotReady, Unavailable, at, sequence)));
    }

    /** Readiness: failed liveness or a required dependency down is not ready; anything short of all ready is
      * degraded. */
    method CheckReadiness() returns (r: Readiness)
      requires Valid()
      ensures r.IsNotReady? <==> liveness.Failed? || SomeRequiredDown(View())
      ensures r.IsReady? <==> liveness.Alive? && AllReady(View())
    {
      if liveness.Failed? { return IsNotReady; }
      if exists name | name in specs :: dependencies[name].status.NotReady? && specs[name].requirement.Required? {
        return IsNotReady;
      }
      if exists name | name in specs :: !dependencies[name].status.Ready? { return IsDegraded; }
      return IsReady;
    }
  }
}
