/** Which runs the budget guard admits, what a settlement books, and which alert a pause carries. */
module BudgetLaws {
  import opened Common
  import opened Rounding
  import opened Budget
  import opened BudgetTheorems

  predicate Booked(b: Books, run: int) {
    exists i :: 0 <= i < |b.entries| && b.entries[i].run == run
  }

  lemma BookedIff(b: Books, run: int)
    ensures Booked(b, run) <==> Find(b.entries, run) < |b.entries|
  {
  }

  predicate Counted(tokens: int) { 0 <= tokens <= 1000000 }

  /** The snapshot shows the books; what remains is never less than nothing. */
  predicate Shows(s: Snapshot, limit: Limit, b: Books) {
    var left := limit.ceiling - b.spent - Held(b.entries);
    && s.ceiling == limit.ceiling && s.spent == b.spent && s.reserved == Held(b.entries)
    && s.paused == b.paused && s.alerts == b.alerts
    && (left >= 0.0 ==> s.remaining == left) && (left <= 0.0 ==> s.remaining == 0.0)
  }

  /** The guard is paused, and it is this pause that raised the alert unless it was paused already. */
  predicate PausedFor(before: Books, after: Books, run: int, code: AlertCode) {
    after.paused && after.alerts == before.alerts + if before.paused then [] else [Alert(run, code)]
  }

  predicate Refused(limit: Limit, b: Books, run: int, next: Books, r: Result<Admission, BudgetError>) {
    && r.Ok? && !r.value.allowed && r.value.run == run && r.value.reservation == 0.0
    && Shows(r.value.snapshot, limit, next)
    && next.entries == b.entries && next.spent == b.spent
  }

  /** The run's worst case is booked as held. */
  predicate Admitted(
    limit: Limit, b: Books, run: int, maximum: Usage, cost: real, next: Books, r: Result<Admission, BudgetError>)
  {
    && r.Ok? && r.value.allowed && r.value.run == run && r.value.reservation == cost
    && Shows(r.value.snapshot, limit, next)
    && next.entries == b.entries + [Entry(run, maximum, cost, None)]
    && next.spent == b.spent && next.paused == b.paused && next.alerts == b.alerts
  }

  /** What a reservation does to books in order: tokens out of range and a run already booked are errors; a run is
    * admitted if and only if the guard is not paused, there is room for a run, and what is spent and held with its
    * worst cost stays within the ceiling; a refusal pauses for the number of runs before it pauses for the money. */
  lemma ReserveAnswers(limit: Limit, b: Books, run: int, input: int, output: int)
    requires Fair(limit.cost) && Inv(limit, b)
    ensures var (next, r) := Reserve(limit, b, run, input, output);
      if !Counted(input) || !Counted(output) then next == b && r == Err(UsageInvalid)
      else if Booked(b, run) then next == b && r == Err(RunReused)
      else
        var cost, room := limit.cost(input, output), |b.entries| < limit.maxRuns;
        if !b.paused && room && b.spent + Held(b.entries) + cost <= limit.ceiling
        then Admitted(limit, b, run, Usage(input, output, true), cost, next, r)
        else Refused(limit, b, run, next, r) && PausedFor(b, next, run, if room then Exhausted else RunLimit)
  {
    BookedIff(b, run);
  }

  predicate SameEntry(before: Entry, after: Entry, usage: Usage) {
    after.run == before.run && after.maximum == before.maximum && after.settled == Some(usage)
  }

  /** The settled entry replaces the open one; known usage is spent and unknown usage is held at the larger of the
    * reservation and its cost. */
  predicate SettledAt(b: Books, i: nat, usage: Usage, cost: real, next: Books) {
    && i < |b.entries| && |next.entries| == |b.entries|
    && next.entries[..i] == b.entries[..i] && next.entries[i + 1..] == b.entries[i + 1..]
    && SameEntry(b.entries[i], next.entries[i], usage)
    && (usage.known ==> next.spent == b.spent + cost && next.entries[i].amount == b.entries[i].amount)
    && (!usage.known ==>
          && next.spent == b.spent
          && (b.entries[i].amount >= cost ==> next.entries[i].amount == b.entries[i].amount)
          && (b.entries[i].amount <= cost ==> next.entries[i].amount == cost))
  }

  /** Unknown usage pauses; so does usage beyond the reservation, and then an exhausted budget. */
  predicate PausesAsNeeded(limit: Limit, b: Books, maximum: Usage, run: int, usage: Usage, next: Books) {
    if !usage.known then PausedFor(b, next, run, UsageUnknown)
    else if usage.input > maximum.input || usage.output > maximum.output then
      PausedFor(b, next, run, ReservationExceeded)
    else if next.spent + Held(next.entries) >= limit.ceiling then PausedFor(b, next, run, Exhausted)
    else next.paused == b.paused && next.alerts == b.alerts
  }

  /** The first entry of the run. */
  predicate EntryOf(b: Books, run: int, i: nat) {
    i < |b.entries| && b.entries[i].run == run && forall j :: 0 <= j < i ==> b.entries[j].run != run
  }

  /** What a settlement does: tokens out of range, a run not booked and a second settlement with other usage are
    * errors that change nothing; the same settlement again changes nothing; a first one is booked. */
  lemma SettleAnswers(limit: Limit, b: Books, run: int, input: int, output: int, known: bool)
    ensures var (next, r) := Settle(limit, b, run, input, output, known);
      && (!Counted(input) || !Counted(output) ==> next == b && r == Err(UsageInvalid))
      && (Counted(input) && Counted(output) && !Booked(b, run) ==> next == b && r == Err(ReservationMissing))
      && (Counted(input) && Counted(output) ==>
            forall i: nat :: EntryOf(b, run, i) ==>
              var settled, usage := b.entries[i].settled, Usage(input, output, known);
              if settled.None? then
                && SettledAt(b, i, usage, limit.cost(input, output), next)
                && PausesAsNeeded(limit, b, b.entries[i].maximum, run, usage, next)
                && r.Ok? && Shows(r.value, limit, next)
              else
                && next == b
                && (settled.value != usage ==> r == Err(SettlementConflict))
                && (settled.value == usage ==> r.Ok? && Shows(r.value, limit, next)))
  {
    BookedIff(b, run);
    forall i: nat | EntryOf(b, run, i) ensures Find(b.entries, run) == i { FindIsFirst(b.entries, run, i); }
  }

  /** The laws hold in every state that a guard can reach. */
  lemma ReachableReserveAnswers(ceiling: Positive, rates: Rates, maxRuns: nat, steps: seq<Step>, run: int,
                                input: int, output: int)
    requires Counted(input) && Counted(output) && !Booked(Run(LimitOf(ceiling, rates, maxRuns), steps), run)
    ensures var limit := LimitOf(ceiling, rates, maxRuns);
      var b := Run(limit, steps);
      var r := Reserve(limit, b, run, input, output).1;
      && r.Ok?
      && (r.value.allowed <==>
            !b.paused && |b.entries| < maxRuns && b.spent + Held(b.entries) + Estimate(rates, input, output) <= ceiling)
  {
    var limit := LimitOf(ceiling, rates, maxRuns);
    RatesAreFair(rates);
    RunKeeps(limit, steps);
    ReserveAnswers(limit, Run(limit, steps), run, input, output);
  }
}
