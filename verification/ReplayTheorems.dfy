/** No lookahead: what a run decides up to a cutoff depends only on what was known by then. */
module ReplayTheorems {
  import opened Common
  import opened Replay

  /** The two datasets cannot be told apart at the cutoff. An instrument whose identity is still in the
    * future at the cutoff is not visible either. */
  ghost predicate AgreeAt(a: MarketData, b: MarketData, cutoff: int) {
    && a.timeframe == b.timeframe
    && (a.instrument == b.instrument || (a.instrument.identityAsOf > cutoff && b.instrument.identityAsOf > cutoff))
    && VisibleQuotes(a.quotes, cutoff) == VisibleQuotes(b.quotes, cutoff)
    && VisibleBars(a.bars, cutoff) == VisibleBars(b.bars, cutoff)
  }

  lemma {:induction false} QuotesRefilter(quotes: seq<Quote>, early: int, late: int)
    requires early <= late
    ensures VisibleQuotes(VisibleQuotes(quotes, late), early) == VisibleQuotes(quotes, early)
  {
    if quotes != [] {
      var rest := VisibleQuotes(quotes[1..], late);
      QuotesRefilter(quotes[1..], early, late);
      if QuoteVisible(quotes[0], late) {
        assert ([quotes[0]] + rest)[1..] == rest;
      }
    }
  }

  lemma {:induction false} BarsRefilter(bars: seq<ClosedBar>, early: int, late: int)
    requires early <= late
    ensures VisibleBars(VisibleBars(bars, late), early) == VisibleBars(bars, early)
  {
    if bars != [] {
      var rest := VisibleBars(bars[1..], late);
      BarsRefilter(bars[1..], early, late);
      if BarVisible(bars[0], late) {
        assert ([bars[0]] + rest)[1..] == rest;
      }
    }
  }

  /** Agreement at a cutoff is agreement at every earlier one. */
  lemma AgreeEarlier(a: MarketData, b: MarketData, early: int, late: int)
    requires AgreeAt(a, b, late) && early <= late
    ensures AgreeAt(a, b, early)
  {
    QuotesRefilter(a.quotes, early, late);
    QuotesRefilter(b.quotes, early, late);
    BarsRefilter(a.bars, early, late);
    BarsRefilter(b.bars, early, late);
  }

  lemma SameContext(lib: Libraries, a: MarketData, b: MarketData, point: Point, config: Config, state: Option<State>)
    requires AgreeAt(a, b, point.asOf)
    ensures VisibleContext(lib, a, point, config, state) == VisibleContext(lib, b, point, config, state)
  {
  }

  lemma SameDecision(
    lib: Libraries, a: MarketData, b: MarketData, config: Config, definition: Definition, deadline: int, i: nat,
    point: Point, state: Option<State>, cutoff: int)
    requires AgreeAt(a, b, cutoff) && point.asOf <= cutoff
    ensures Decide(lib, a, config, definition, deadline, i, point, state)
         == Decide(lib, b, config, definition, deadline, i, point, state)
  {
    AgreeEarlier(a, b, point.asOf, cutoff);
    SameContext(lib, a, b, point, config, state);
  }

  lemma {:induction false} ContinueExtends(
    decide: Decider, bytes: Step -> nat, points: seq<Point>, i: nat, steps: seq<Step>, retained: nat,
    state: Option<State>)
    requires i <= |points|
    ensures var trace := Continue(decide, bytes, points, i, steps, retained, state);
      && |steps| <= |trace.steps| && trace.steps[..|steps|] == steps
    decreases |points| - i
  {
    if i < |points| {
      var decided := decide(i, points[i], state);
      if decided.Ok? && Fits(bytes(decided.value), retained) {
        var longer := steps + [decided.value];
        ContinueExtends(decide, bytes, points, i + 1, longer, retained + bytes(decided.value),
                        NextState(decided.value, state));
        assert longer[..|steps|] == steps;
      }
    }
  }

  /** What a trace shows of its first `k` points: their steps, and the error if one of them failed. */
  function Upto(trace: Trace, k: nat): Trace {
    if k <= |trace.steps| then Trace(trace.steps[..k], None) else trace
  }

  ghost predicate DecideAlike(a: Decider, b: Decider, cutoff: int) {
    forall i: nat, point: Point, state :: point.asOf <= cutoff ==> a(i, point, state) == b(i, point, state)
  }

  lemma {:induction false} SameContinuation(
    a: Decider, b: Decider, bytes: Step -> nat, p: seq<Point>, q: seq<Point>, k: nat, cutoff: int, i: nat,
    steps: seq<Step>, retained: nat, state: Option<State>)
    requires DecideAlike(a, b, cutoff) && k <= |p| && k <= |q| && p[..k] == q[..k]
    requires forall n :: 0 <= n < k ==> p[n].asOf <= cutoff
    requires i == |steps| <= k
    ensures Upto(Continue(a, bytes, p, i, steps, retained, state), k)
         == Upto(Continue(b, bytes, q, i, steps, retained, state), k)
    decreases k - i
  {
    if i == k {
      ContinueExtends(a, bytes, p, i, steps, retained, state);
      ContinueExtends(b, bytes, q, i, steps, retained, state);
    } else {
      assert p[i] == p[..k][i] == q[..k][i] == q[i];
      var decided := a(i, p[i], state);
      if decided.Ok? && Fits(bytes(decided.value), retained) {
        SameContinuation(a, b, bytes, p, q, k, cutoff, i + 1, steps + [decided.value],
                  retained + bytes(decided.value), NextState(decided.value, state));
      }
    }
  }

  lemma DecidersAgree(
    lib: Libraries, a: MarketData, b: MarketData, config: Config, definition: Definition, deadline: int, cutoff: int)
    requires AgreeAt(a, b, cutoff)
    ensures DecideAlike(DeciderOf(lib, a, config, definition, deadline),
                        DeciderOf(lib, b, config, definition, deadline), cutoff)
  {
    forall i: nat, point: Point, state | point.asOf <= cutoff
      ensures DeciderOf(lib, a, config, definition, deadline)(i, point, state)
           == DeciderOf(lib, b, config, definition, deadline)(i, point, state) {
      SameDecision(lib, a, b, config, definition, deadline, i, point, state, cutoff);
    }
  }

  /** Two datasets that agree on everything visible at a cutoff, and two schedules that share their points
    * up to it, give the same steps for every such point, or fail at the same one with the same code. */
  lemma NoLookahead(
    lib: Libraries, a: MarketData, b: MarketData, p: seq<Point>, q: seq<Point>, k: nat, config: Config,
    definition: Definition, deadline: int, cutoff: int)
    requires AgreeAt(a, b, cutoff) && k <= |p| && k <= |q| && p[..k] == q[..k]
    requires forall n :: 0 <= n < k ==> p[n].asOf <= cutoff
    ensures Upto(Replayed(lib, a, p, config, definition, deadline), k)
         == Upto(Replayed(lib, b, q, config, definition, deadline), k)
  {
    DecidersAgree(lib, a, b, config, definition, deadline, cutoff);
    SameContinuation(DeciderOf(lib, a, config, definition, deadline),
                     DeciderOf(lib, b, config, definition, deadline), lib.bytes,
                     p, q, k, cutoff, 0, [], 0, config.initialState);
  }

  // ----- What a step may have seen -----

  lemma {:induction false} VisibleQuotesAre(quotes: seq<Quote>, cutoff: int)
    ensures forall q :: q in VisibleQuotes(quotes, cutoff) <==> q in quotes && QuoteVisible(q, cutoff)
  {
    if quotes != [] { VisibleQuotesAre(quotes[1..], cutoff); }
  }

  lemma {:induction false} VisibleBarsAre(bars: seq<ClosedBar>, cutoff: int)
    ensures forall b :: b in VisibleBars(bars, cutoff) <==> b in bars && BarVisible(b, cutoff)
  {
    if bars != [] { VisibleBarsAre(bars[1..], cutoff); }
  }

  lemma {:induction false} LatestIsLatest(quotes: seq<Quote>)
    requires quotes != []
    ensures Latest(quotes) in quotes
    ensures forall q :: q in quotes ==> !EarlierClock(Latest(quotes).provenance, q.provenance)
    decreases |quotes|
  {
    if |quotes| > 1 {
      var before := quotes[..|quotes| - 1];
      LatestIsLatest(before);
      assert quotes == before + [quotes[|quotes| - 1]];
    }
  }

  /** The step was decided at its point's clock, on the newest quote known by then, on exactly the bars
    * closed and known by then in the dataset's order, and on a strategy state no newer than the cutoff. */
  ghost predicate PointInTime(d: MarketData, point: Point, step: Step) {
    var c := step.context;
    && c.asOf == point.asOf && c.portfolio == point.portfolio
    && c.quote in d.quotes && QuoteVisible(c.quote, point.asOf)
    && (forall q :: q in d.quotes && QuoteVisible(q, point.asOf) ==> !EarlierClock(c.quote.provenance, q.provenance))
    && c.page.bars == Items(VisibleBars(d.bars, point.asOf))
    && (forall b :: b in c.page.bars <==>
          exists closed :: closed in d.bars && BarVisible(closed, point.asOf) && closed.bar == b)
    && (c.state.Some? ==> c.state.value.updatedAt <= point.asOf)
    && (step.result.nextState.Some? ==> step.result.nextState.value.updatedAt <= point.asOf)
  }

  lemma DecidedInTime(
    lib: Libraries, d: MarketData, config: Config, definition: Definition, deadline: int, i: nat, point: Point,
    state: Option<State>)
    ensures var decided := Decide(lib, d, config, definition, deadline, i, point, state);
      Careful(d, definition, point, state, decided)
  {
    VisibleQuotesAre(d.quotes, point.asOf);
    VisibleBarsAre(d.bars, point.asOf);
    if VisibleQuotes(d.quotes, point.asOf) != [] { LatestIsLatest(VisibleQuotes(d.quotes, point.asOf)); }
    var decided := Decide(lib, d, config, definition, deadline, i, point, state);
    if decided.Ok? {
      ItemsAre(VisibleBars(d.bars, point.asOf));
    }
  }

  lemma ItemsAre(bars: seq<ClosedBar>)
    ensures forall b :: b in Items(bars) <==> exists closed :: closed in bars && closed.bar == b
  {
    forall b ensures b in Items(bars) <==> exists closed :: closed in bars && closed.bar == b {
      if b in Items(bars) {
        var i :| 0 <= i < |bars| && Items(bars)[i] == b;
        assert bars[i] in bars;
      }
      if closed :| closed in bars && closed.bar == b {
        var i :| 0 <= i < |bars| && bars[i] == closed;
        assert Items(bars)[i] == b;
      }
    }
  }

  /** A decided point is point-in-time, took the state it was given, and leaves a state of this strategy. */
  ghost predicate Sound(decide: Decider, d: MarketData, definition: Definition) {
    forall i: nat, point: Point, state :: Careful(d, definition, point, state, decide(i, point, state))
  }

  ghost predicate Careful(
    d: MarketData, definition: Definition, point: Point, state: Option<State>, decided: Result<Step, Code>) {
    decided.Ok? ==>
      && PointInTime(d, point, decided.value)
      && decided.value.context.state == state
      && (decided.value.result.nextState.Some? ==>
            StateBelongs(decided.value.result.nextState.value, definition, point.asOf))
  }

  lemma DeciderIsSound(lib: Libraries, d: MarketData, config: Config, definition: Definition, deadline: int)
    ensures Sound(DeciderOf(lib, d, config, definition, deadline), d, definition)
  {
    forall i: nat, point: Point, state
      ensures Careful(d, definition, point, state, DeciderOf(lib, d, config, definition, deadline)(i, point, state)) {
      DecidedInTime(lib, d, config, definition, deadline, i, point, state);
    }
  }

  function StateAfter(steps: seq<Step>, initial: Option<State>): Option<State> {
    if steps == [] then initial else NextState(steps[|steps| - 1], steps[|steps| - 1].context.state)
  }

  predicate Belongs(state: Option<State>, definition: Definition, asOf: int) {
    state.Some? ==> StateBelongs(state.value, definition, asOf)
  }

  /** The first steps of a run are point-in-time and thread the strategy's own state. */
  ghost predicate Threaded(
    d: MarketData, points: seq<Point>, definition: Definition, initial: Option<State>, steps: seq<Step>) {
    && |steps| <= |points|
    && forall k :: 0 <= k < |steps| ==>
         && PointInTime(d, points[k], steps[k])
         && steps[k].context.state == StateAfter(steps[..k], initial)
         && Belongs(steps[k].context.state, definition, points[k].asOf)
  }

  ghost predicate Scheduled(points: seq<Point>) {
    forall i, j :: 0 <= i < j < |points| ==> points[i].asOf < points[j].asOf
  }

  lemma ThreadedExtends(
    d: MarketData, points: seq<Point>, definition: Definition, initial: Option<State>, steps: seq<Step>, step: Step)
    requires Threaded(d, points, definition, initial, steps) && |steps| < |points|
    requires PointInTime(d, points[|steps|], step) && step.context.state == StateAfter(steps, initial)
    requires Belongs(step.context.state, definition, points[|steps|].asOf)
    ensures Threaded(d, points, definition, initial, steps + [step])
  {
    var longer := steps + [step];
    forall k | 0 <= k < |longer|
      ensures PointInTime(d, points[k], longer[k])
      ensures longer[k].context.state == StateAfter(longer[..k], initial)
      ensures Belongs(longer[k].context.state, definition, points[k].asOf) {
      if k < |steps| {
        assert longer[..k] == steps[..k] && longer[k] == steps[k];
      } else {
        assert longer[..k] == steps && longer[k] == step;
      }
    }
  }

  lemma StepThreads(
    d: MarketData, points: seq<Point>, definition: Definition, initial: Option<State>, steps: seq<Step>,
    decided: Result<Step, Code>)
    requires Threaded(d, points, definition, initial, steps) && |steps| < |points| && Scheduled(points)
    requires Belongs(StateAfter(steps, initial), definition, points[|steps|].asOf)
    requires decided.Ok? && Careful(d, definition, points[|steps|], StateAfter(steps, initial), decided)
    ensures Threaded(d, points, definition, initial, steps + [decided.value])
    ensures NextState(decided.value, StateAfter(steps, initial)) == StateAfter(steps + [decided.value], initial)
    ensures |steps| + 1 < |points| ==>
      Belongs(StateAfter(steps + [decided.value], initial), definition, points[|steps| + 1].asOf)
  {
    ThreadedExtends(d, points, definition, initial, steps, decided.value);
    assert |steps| + 1 < |points| ==> points[|steps|].asOf < points[|steps| + 1].asOf;
  }

  /** Whatever each decided point adds to safely holds of the whole run. */
  ghost predicate Inductive(decide: Decider, points: seq<Point>, initial: Option<State>, inv: seq<Step> -> bool) {
    forall steps: seq<Step>, step: Step {:trigger inv(steps + [step])} ::
      (inv(steps) && |steps| < |points| && decide(|steps|, points[|steps|], StateAfter(steps, initial)) == Ok(step))
      ==> inv(steps + [step]) && step.context.state == StateAfter(steps, initial)
  }

  lemma {:induction false} LoopKeeps(
    decide: Decider, bytes: Step -> nat, points: seq<Point>, initial: Option<State>, inv: seq<Step> -> bool,
    i: nat, steps: seq<Step>, retained: nat, state: Option<State>)
    requires Inductive(decide, points, initial, inv) && i == |steps| <= |points|
    requires inv(steps) && state == StateAfter(steps, initial)
    ensures inv(Continue(decide, bytes, points, i, steps, retained, state).steps)
    decreases |points| - i
  {
    if i < |points| {
      var decided := decide(i, points[i], state);
      if decided.Ok? && Fits(bytes(decided.value), retained) {
        assert inv(steps + [decided.value]);
        LoopKeeps(decide, bytes, points, initial, inv, i + 1, steps + [decided.value],
                  retained + bytes(decided.value), NextState(decided.value, state));
      }
    }
  }

  /** Threaded steps, and a state that the next point may use. */
  ghost predicate OnTrack(
    d: MarketData, points: seq<Point>, definition: Definition, initial: Option<State>, steps: seq<Step>) {
    && Threaded(d, points, definition, initial, steps)
    && (|steps| < |points| ==> Belongs(StateAfter(steps, initial), definition, points[|steps|].asOf))
  }

  lemma OnTrackIsInductive(
    decide: Decider, d: MarketData, points: seq<Point>, definition: Definition, initial: Option<State>)
    requires Sound(decide, d, definition) && Scheduled(points)
    ensures Inductive(decide, points, initial, steps => OnTrack(d, points, definition, initial, steps))
  {
    var inv := steps => OnTrack(d, points, definition, initial, steps);
    forall steps: seq<Step>, step: Step
      | inv(steps) && |steps| < |points| && decide(|steps|, points[|steps|], StateAfter(steps, initial)) == Ok(step)
      ensures inv(steps + [step]) && step.context.state == StateAfter(steps, initial) {
      var state := StateAfter(steps, initial);
      assert Careful(d, definition, points[|steps|], state, decide(|steps|, points[|steps|], state));
      StepThreads(d, points, definition, initial, steps, Ok(step));
    }
  }

  /** In every accepted run each step saw the newest quote and exactly the bars known at its cutoff, and the
    * state left by the step before, which is never from the future and never another strategy's. */
  lemma StepsArePointInTime(
    lib: Libraries, d: MarketData, points: seq<Point>, config: Config, definition: Definition, deadline: int)
    requires Accepts(d, points, config, definition)
    ensures var trace := Replayed(lib, d, points, config, definition, deadline);
      Threaded(d, points, definition, config.initialState, trace.steps)
  {
    var decide := DeciderOf(lib, d, config, definition, deadline);
    DeciderIsSound(lib, d, config, definition, deadline);
    OnTrackIsInductive(decide, d, points, definition, config.initialState);
    LoopKeeps(decide, lib.bytes, points, config.initialState,
              steps => OnTrack(d, points, definition, config.initialState, steps), 0, [], 0, config.initialState);
  }
}
