/** The research budget guard: reserve the worst case before a run, settle the actual usage after it, and
  * pause for good when the books cannot be trusted. */
module Budget {
  import opened Common
  import opened Rounding

  const MAXIMUM_TOKENS: nat := 1000000

  // ----- Rates -----

  datatype Rates = Rates(inputPerMillion: Positive, outputPerMillion: Positive)

  function ExactCost(rates: Rates, input: nat, output: nat): real {
    (input as real * rates.inputPerMillion + output as real * rates.outputPerMillion) / 1000000.0
  }

  /** The cost in dollars, rounded up to the quantum. */
  function Estimate(rates: Rates, input: nat, output: nat): real {
    CeilTo(ExactCost(rates, input, output), QUANTUM)
  }

  /** What a number of tokens costs. */
  type Cost = (nat, nat) -> real

  function CostOf(rates: Rates): Cost {
    (input: nat, output: nat) => Estimate(rates, input, output)
  }

  // ----- Books -----

  datatype Usage = Usage(input: nat, output: nat, known: bool)

  datatype Limit = Limit(ceiling: Positive, cost: Cost, maxRuns: nat)

  datatype Entry = Entry(run: int, maximum: Usage, amount: real, settled: Option<Usage>)

  datatype AlertCode = RunLimit | Exhausted | UsageUnknown | ReservationExceeded

  datatype Alert = Alert(run: int, code: AlertCode)

  /** The dictionary of reservations is kept in its insertion order. */
  datatype Books = Books(entries: seq<Entry>, spent: real, paused: bool, alerts: seq<Alert>)

  datatype Snapshot = Snapshot(
    ceiling: real, spent: real, reserved: real, remaining: real, paused: bool, alerts: seq<Alert>)

  datatype Admission = Admission(run: int, allowed: bool, reservation: real, snapshot: Snapshot)

  datatype BudgetError = UsageInvalid | RunReused | ReservationMissing | SettlementConflict

  predicate TokensOk(input: int, output: int) {
    0 <= input <= MAXIMUM_TOKENS && 0 <= output <= MAXIMUM_TOKENS
  }

  predicate Holds(e: Entry) { e.settled.None? || !e.settled.value.known }

  function Held(entries: seq<Entry>): real {
    if entries == [] then 0.0
    else
      var e := entries[|entries| - 1];
      Held(entries[..|entries| - 1]) + if Holds(e) then e.amount else 0.0
  }

  function Remaining(limit: Limit, b: Books): real {
    var left := limit.ceiling - b.spent - Held(b.entries);
    if left < 0.0 then 0.0 else left
  }

  function Snap(limit: Limit, b: Books): Snapshot {
    Snapshot(limit.ceiling, b.spent, Held(b.entries), Remaining(limit, b), b.paused, b.alerts)
  }

  /** Where the run is booked, or the number of entries. */
  function Find(entries: seq<Entry>, run: int): (i: nat)
    ensures i <= |entries|
    ensures i < |entries| ==> entries[i].run == run
    ensures forall j :: 0 <= j < i ==> entries[j].run != run
  {
    if entries == [] then 0 else if entries[0].run == run then 0 else
      var i := Find(entries[1..], run);
      assert forall j :: 0 < j < i + 1 ==> entries[j] == entries[1..][j - 1];
      i + 1
  }

  function Pause(b: Books, run: int, code: AlertCode): Books {
    b.(paused := true, alerts := if b.paused then b.alerts else b.alerts + [Alert(run, code)])
  }

  // ----- Reserve and settle -----

  function Reserve(limit: Limit, b: Books, run: int, input: int, output: int): (Books, Result<Admission, BudgetError>) {
    if !TokensOk(input, output) then (b, Err(UsageInvalid))
    else if Find(b.entries, run) < |b.entries| then (b, Err(RunReused))
    else
      var amount := limit.cost(input, output);
      if !b.paused && |b.entries| < limit.maxRuns && amount <= Remaining(limit, b) then
        var next := b.(entries := b.entries + [Entry(run, Usage(input, output, true), amount, None)]);
        (next, Ok(Admission(run, true, amount, Snap(limit, next))))
      else
        var next := if b.paused then b else Pause(b, run, if |b.entries| >= limit.maxRuns then RunLimit else Exhausted);
        (next, Ok(Admission(run, false, 0.0, Snap(limit, next))))
  }

  predicate Exceeds(usage: Usage, maximum: Usage) {
    usage.input > maximum.input || usage.output > maximum.output
  }

  function Larger(x: real, y: real): real { if x < y then y else x }

  function SettledEntry(limit: Limit, e: Entry, usage: Usage): Entry {
    var cost := limit.cost(usage.input, usage.output);
    e.(settled := Some(usage), amount := if usage.known then e.amount else Larger(e.amount, cost))
  }

  function Settle(
    limit: Limit, b: Books, run: int, input: int, output: int, known: bool): (Books, Result<Snapshot, BudgetError>) {
    if !TokensOk(input, output) then (b, Err(UsageInvalid))
    else
      var i, usage := Find(b.entries, run), Usage(input, output, known);
      if i == |b.entries| then (b, Err(ReservationMissing))
      else if b.entries[i].settled.Some? then
        if b.entries[i].settled.value != usage then (b, Err(SettlementConflict)) else (b, Ok(Snap(limit, b)))
      else
        var cost := limit.cost(usage.input, usage.output);
        var entries := b.entries[i := SettledEntry(limit, b.entries[i], usage)];
        var booked := b.(entries := entries, spent := if known then b.spent + cost else b.spent);
        var next :=
          if !known then Pause(booked, run, UsageUnknown)
          else if Exceeds(usage, b.entries[i].maximum) then Pause(booked, run, ReservationExceeded)
          else if Remaining(limit, booked) == 0.0 then Pause(booked, run, Exhausted)
          else booked;
        (next, Ok(Snap(limit, next)))
  }

  // ----- Runs -----

  datatype Step =
    | ReserveStep(run: int, input: int, output: int)
    | SettleStep(run: int, input: int, output: int, known: bool)

  function Apply(limit: Limit, b: Books, step: Step): Books {
    match step
    case ReserveStep(run, input, output) => Reserve(limit, b, run, input, output).0
    case SettleStep(run, input, output, known) => Settle(limit, b, run, input, output, known).0
  }

  const FRESH_BOOKS: Books := Books([], 0.0, false, [])

  function Run(limit: Limit, steps: seq<Step>): Books {
    if steps == [] then FRESH_BOOKS else Apply(limit, Run(limit, steps[..|steps| - 1]), steps[|steps| - 1])
  }

  // ----- The guard -----

  class ResearchBudgetGuard {
    const limit: Limit
    var entries: seq<Entry>
    var spent: real
    var paused: bool
    var alerts: seq<Alert>

    function View(): Books
      reads this
    {
      Books(entries, spent, paused, alerts)
    }

    constructor (limit: Limit)
      ensures this.limit == limit && View() == FRESH_BOOKS
    {
      this.limit := limit;
      entries, spent, paused, alerts := [], 0.0, false, [];
    }

    method TakeSnapshot() returns (s: Snapshot)
      ensures s == Snap(limit, View())
    {
      var held := 0.0;
      for i := 0 to |entries|
        invariant held == Held(entries[..i])
      {
        assert entries[..i + 1][..i] == entries[..i];
        if Holds(entries[i]) { held := held + entries[i].amount; }
      }
      assert entries[..|entries|] == entries;
      var left := limit.ceiling - spent - held;
      return Snapshot(limit.ceiling, spent, held, if left < 0.0 then 0.0 else left, paused, alerts);
    }

    method PauseGuard(run: int, code: AlertCode)
      modifies this
      ensures View() == Pause(old(View()), run, code)
    {
      if !paused { alerts := alerts + [Alert(run, code)]; }
      paused := true;
    }

    method ReserveRun(run: int, input: int, output: int) returns (r: Result<Admission, BudgetError>)
      modifies this
      ensures (View(), r) == Reserve(limit, old(View()), run, input, output)
    {
      if !TokensOk(input, output) { return Err(UsageInvalid); }
      var amount := limit.cost(input, output);
      if Find(entries, run) < |entries| { return Err(RunReused); }
      if !paused {
        var s := TakeSnapshot();
        if |entries| >= limit.maxRuns {
          PauseGuard(run, RunLimit);
        } else if amount > s.remaining {
          PauseGuard(run, Exhausted);
        } else {
          entries := entries + [Entry(run, Usage(input, output, true), amount, None)];
          s := TakeSnapshot();
          return Ok(Admission(run, true, amount, s));
        }
      }
      var s := TakeSnapshot();
      return Ok(Admission(run, false, 0.0, s));
    }

    method SettleRun(run: int, input: int, output: int, known: bool) returns (r: Result<Snapshot, BudgetError>)
      modifies this
      ensures (View(), r) == Settle(limit, old(View()), run, input, output, known)
    {
      if !TokensOk(input, output) { return Err(UsageInvalid); }
      var i, usage := Find(entries, run), Usage(input, output, known);
      if i == |entries| { return Err(ReservationMissing); }
      var e := entries[i];
      if e.settled.Some? {
        if e.settled.value != usage { return Err(SettlementConflict); }
        var again := TakeSnapshot();
        return Ok(again);
      }
      entries := entries[i := SettledEntry(limit, e, usage)];
      if !known {
        PauseGuard(run, UsageUnknown);
      } else {
        spent := spent + limit.cost(usage.input, usage.output);
        var s := TakeSnapshot();
        if Exceeds(usage, e.maximum) {
          PauseGuard(run, ReservationExceeded);
        } else if s.remaining == 0.0 {
          PauseGuard(run, Exhausted);
        }
      }
      var s := TakeSnapshot();
      return Ok(s);
    }
  }
}
