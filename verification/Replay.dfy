/** Historical replay: a schedule of decision points over a dataset, each decided from what was known at
  * its cutoff. The strategy worker, the indicators, the sizer, the risk engine and the clock are
  * parameters; values the loop never looks into are integers; digests are the values they digest. */
module Replay {
  import opened Common

  datatype Instrument = Instrument(id: int, identityAsOf: int)

  datatype Provenance = Provenance(source: int, observedAt: int, receivedAt: int, delayed: bool, flags: set<int>)

  datatype Quote = Quote(
    instrument: Instrument, provenance: Provenance, bid: Option<real>, ask: Option<real>, last: real)

  datatype Bar = Bar(instrument: Instrument, interval: int, start: int, provenance: Provenance, prices: int)

  datatype ClosedBar = ClosedBar(bar: Bar, closedAt: int)

  datatype MarketData = MarketData(instrument: Instrument, timeframe: int, bars: seq<ClosedBar>, quotes: seq<Quote>)

  datatype Portfolio = Portfolio(asOf: int, provenance: Provenance, holdings: int)

  datatype Point = Point(asOf: int, availableAt: int, expectedStarts: seq<int>, portfolio: Portfolio, riskInputs: int)

  datatype Definition = Definition(name: int, version: int, plugin: int)

  datatype State = State(strategy: int, version: int, updatedAt: int, items: int)

  /** The age and the duration are in seconds; the worker's wall timeout is in milliseconds. */
  datatype Config = Config(
    runId: int, params: int, initialState: Option<State>, maxAge: nat, duration: nat, wallTimeout: nat, policy: int)

  datatype Page = Page(instrument: int, interval: int, bars: seq<Bar>, provenance: Provenance)

  datatype Expectation = Expectation(
    instrument: Instrument, provider: int, timeframe: int, asOf: int, maxAge: nat, starts: seq<int>)

  datatype Indicators = Indicators(values: int, flags: set<int>)

  /** What the indicator library does: it computes, reports incomplete data, or raises anything else. */
  datatype Computation = Computed(indicators: Indicators) | Incomplete | Raised

  datatype Context = Context(
    asOf: int, quote: Quote, page: Page, indicators: Indicators, portfolio: Portfolio, state: Option<State>)

  datatype Signal = Signal(strategy: int, version: int, content: int)

  datatype StrategyResult = StrategyResult(signals: seq<Signal>, nextState: Option<State>)

  datatype WorkerResult = WorkerResult(
    success: bool, result: Option<StrategyResult>, input: Context, params: int, definition: Definition)

  datatype Sizing = Sizing(asOf: int, candidate: Option<int>)

  datatype Risk = Risk(candidate: int, decidedAt: int, verdict: int)

  datatype Step = Step(context: Context, result: StrategyResult, sizing: Option<Sizing>, risk: Option<Risk>)

  datatype Code =
    | InputInvalid | FutureIdentity | PortfolioQuality | QuoteUnavailable | QuoteQuality | BarsUnavailable
    | BarQuality | Timeout | WorkerFailed | WorkerBinding | MultipleSignals | StateInvalid | SignalInvalid
    | StepInvalid | ResultLimit

  /** The moments at which one point reads the clock, which counts milliseconds. */
  datatype Moment = Entering | Budgeting | Worked | Decided

  /** The libraries behind the loop; None is an exception they raise. */
  datatype Libraries = Libraries(
    clock: (nat, Moment) -> int,
    indicators: (Page, Expectation) -> Computation,
    worker: (nat, Context, int) -> Option<WorkerResult>,
    parse: (Signal, Context) -> Option<Signal>,
    size: (Signal, Quote, Portfolio, Context) -> Option<Sizing>,
    risk: (int, Point, Quote, Context) -> Option<Risk>,
    bytes: Step -> nat)

  // ----- Accepted inputs -----

  predicate EarlierClock(a: Provenance, b: Provenance) {
    a.observedAt < b.observedAt || (a.observedAt == b.observedAt && a.receivedAt < b.receivedAt)
  }

  predicate ClosedBarOk(b: ClosedBar) {
    b.bar.start < b.closedAt && b.closedAt <= b.bar.provenance.observedAt && b.closedAt <= b.bar.provenance.receivedAt
  }

  predicate DataOk(d: MarketData) {
    && 1 <= |d.bars| <= 500 && 1 <= |d.quotes| <= 500
    && (forall i :: 0 <= i < |d.bars| ==>
          && ClosedBarOk(d.bars[i])
          && d.bars[i].bar.instrument == d.instrument && d.bars[i].bar.interval == d.timeframe)
    && (forall i, j :: 0 <= i < j < |d.bars| ==>
          && d.bars[i].bar.start < d.bars[j].bar.start
          && d.bars[i].bar.provenance.source == d.bars[j].bar.provenance.source)
    && (forall i :: 0 <= i < |d.quotes| ==> d.quotes[i].instrument == d.instrument)
    && (forall i, j :: 0 <= i < j < |d.quotes| ==> EarlierClock(d.quotes[i].provenance, d.quotes[j].provenance))
  }

  predicate PointOk(p: Point) {
    && p.availableAt <= p.asOf && p.portfolio.asOf <= p.asOf
    && p.portfolio.provenance.observedAt <= p.asOf && p.portfolio.provenance.receivedAt <= p.asOf
    && 1 <= |p.expectedStarts| <= 500
    && (forall i, j :: 0 <= i < j < |p.expectedStarts| ==> p.expectedStarts[i] < p.expectedStarts[j])
    && p.expectedStarts[|p.expectedStarts| - 1] <= p.asOf
  }

  predicate StateBelongs(s: State, d: Definition, asOf: int) {
    s.strategy == d.name && s.version == d.version && s.updatedAt <= asOf
  }

  predicate Accepts(d: MarketData, points: seq<Point>, config: Config, definition: Definition) {
    && 1 <= |points| <= 64
    && DataOk(d)
    && (forall i :: 0 <= i < |points| ==> PointOk(points[i]))
    && (forall i, j :: 0 <= i < j < |points| ==> points[i].asOf < points[j].asOf)
    && 1 <= config.duration <= 120 && config.maxAge <= 86400 && config.wallTimeout <= 10000
    && (config.initialState.Some? ==> StateBelongs(config.initialState.value, definition, points[0].asOf))
  }

  // ----- What is visible at a cutoff -----

  predicate QuoteVisible(q: Quote, cutoff: int) {
    q.provenance.observedAt <= cutoff && q.provenance.receivedAt <= cutoff
  }

  predicate BarVisible(b: ClosedBar, cutoff: int) {
    b.closedAt <= cutoff && b.bar.provenance.observedAt <= cutoff && b.bar.provenance.receivedAt <= cutoff
  }

  function VisibleQuotes(quotes: seq<Quote>, cutoff: int): seq<Quote> {
    if quotes == [] then []
    else
      var rest := VisibleQuotes(quotes[1..], cutoff);
      if QuoteVisible(quotes[0], cutoff) then [quotes[0]] + rest else rest
  }

  function VisibleBars(bars: seq<ClosedBar>, cutoff: int): seq<ClosedBar> {
    if bars == [] then []
    else
      var rest := VisibleBars(bars[1..], cutoff);
      if BarVisible(bars[0], cutoff) then [bars[0]] + rest else rest
  }

  /** The first quote with the greatest knowledge clock. */
  function Latest(quotes: seq<Quote>): Quote
    requires quotes != []
  {
    if |quotes| == 1 then quotes[0]
    else
      var best := Latest(quotes[..|quotes| - 1]);
      if EarlierClock(best.provenance, quotes[|quotes| - 1].provenance) then quotes[|quotes| - 1] else best
  }

  function Items(bars: seq<ClosedBar>): seq<Bar> {
    seq(|bars|, i requires 0 <= i < |bars| => bars[i].bar)
  }

  function Max(x: int, y: int): int { if x < y then y else x }

  /** The envelope of a page of bars: the provider of the first, the newest clocks, every flag. */
  function Envelope(bars: seq<Bar>): Provenance
    requires bars != []
  {
    if |bars| == 1 then bars[0].provenance
    else
      var before, p := Envelope(bars[..|bars| - 1]), bars[|bars| - 1].provenance;
      Provenance(before.source, Max(before.observedAt, p.observedAt), Max(before.receivedAt, p.receivedAt),
                 before.delayed || p.delayed, before.flags + p.flags)
  }

  predicate Stale(p: Provenance, cutoff: int, maxAge: nat) {
    p.flags != {} || p.delayed || cutoff - p.observedAt > maxAge
  }

  function VisibleContext(
    lib: Libraries, d: MarketData, point: Point, config: Config, state: Option<State>): Result<Context, Code> {
    var cutoff := point.asOf;
    if d.instrument.identityAsOf > cutoff then Err(FutureIdentity)
    else if Stale(point.portfolio.provenance, cutoff, config.maxAge) then Err(PortfolioQuality)
    else if VisibleQuotes(d.quotes, cutoff) == [] then Err(QuoteUnavailable)
    else
      var quote := Latest(VisibleQuotes(d.quotes, cutoff));
      if Stale(quote.provenance, cutoff, config.maxAge) || quote.bid.None? || quote.ask.None? then Err(QuoteQuality)
      else
        var bars := Items(VisibleBars(d.bars, cutoff));
        if bars == [] then Err(BarsUnavailable)
        else
          var page := Page(d.instrument.id, d.timeframe, bars, Envelope(bars));
          var expected := Expectation(d.instrument, page.provenance.source, d.timeframe, cutoff, config.maxAge,
                                      point.expectedStarts);
          var computed := lib.indicators(page, expected);
          if computed.Raised? then Err(StepInvalid)
          else if computed.Incomplete? || computed.indicators.flags != {} then Err(BarQuality)
          else if state.Some? && state.value.updatedAt > cutoff then Err(StepInvalid)
          else Ok(Context(cutoff, quote, page, computed.indicators, point.portfolio, state))
  }

  // ----- One point -----

  function SizeAndRisk(
    lib: Libraries, definition: Definition, point: Point, context: Context,
    result: StrategyResult): Result<Step, Code> {
    if result.signals == [] then Ok(Step(context, result, None, None))
    else
      var parsed := lib.parse(result.signals[0], context);
      if parsed.None? then Err(StepInvalid)
      else if parsed.value.strategy != definition.name || parsed.value.version != definition.version then
        Err(SignalInvalid)
      else
        var sizing := lib.size(parsed.value, context.quote, point.portfolio, context);
        if sizing.None? || sizing.value.asOf != point.asOf then Err(StepInvalid)
        else if sizing.value.candidate.None? then Ok(Step(context, result, sizing, None))
        else
          var candidate := sizing.value.candidate.value;
          var risk := lib.risk(candidate, point, context.quote, context);
          if risk.None? || risk.value.candidate != candidate || risk.value.decidedAt != point.asOf then Err(StepInvalid)
          else Ok(Step(context, result, sizing, risk))
  }

  /** The milliseconds a worker is given. */
  function Budget(lib: Libraries, config: Config, i: nat, deadline: int): int {
    var left := Max(1, deadline - lib.clock(i, Budgeting));
    if left < config.wallTimeout then left else config.wallTimeout
  }

  function Decide(
    lib: Libraries, d: MarketData, config: Config, definition: Definition, deadline: int, i: nat, point: Point,
    state: Option<State>): Result<Step, Code> {
    if lib.clock(i, Entering) >= deadline then Err(Timeout)
    else
      var visible := VisibleContext(lib, d, point, config, state);
      if visible.Err? then Err(visible.error)
      else
        var context := visible.value;
        var worker := lib.worker(i, context, Budget(lib, config, i, deadline));
        if worker.None? then Err(StepInvalid)
        else if lib.clock(i, Worked) >= deadline then Err(Timeout)
        else if !worker.value.success || worker.value.result.None? then Err(WorkerFailed)
        else if worker.value.input != context || worker.value.params != config.params
                || worker.value.definition != definition then Err(WorkerBinding)
        else
          var result := worker.value.result.value;
          if |result.signals| > 1 then Err(MultipleSignals)
          else if result.nextState.Some? && !StateBelongs(result.nextState.value, definition, point.asOf) then
            Err(StateInvalid)
          else
            var step := SizeAndRisk(lib, definition, point, context, result);
            if step.Ok? && lib.clock(i, Decided) >= deadline then Err(Timeout) else step
  }

  predicate Fits(bytes: nat, retained: nat) {
    bytes <= 262144 && retained + bytes <= 2097152
  }

  function NextState(step: Step, state: Option<State>): Option<State> {
    if step.result.nextState.Some? then step.result.nextState else state
  }

  // ----- The loop -----

  datatype Trace = Trace(steps: seq<Step>, error: Option<Code>)

  /** How a run decides point `i`, given the strategy state so far. */
  type Decider = (nat, Point, Option<State>) -> Result<Step, Code>

  function DeciderOf(lib: Libraries, d: MarketData, config: Config, definition: Definition, deadline: int): Decider {
    (i: nat, point: Point, state: Option<State>) => Decide(lib, d, config, definition, deadline, i, point, state)
  }

  /** The rest of a run from point `i`, given what the run has accumulated so far. */
  function Continue(
    decide: Decider, bytes: Step -> nat, points: seq<Point>, i: nat, steps: seq<Step>, retained: nat,
    state: Option<State>): Trace
    requires i <= |points|
    decreases |points| - i
  {
    if i == |points| then Trace(steps, None)
    else
      match decide(i, points[i], state)
      case Err(code) => Trace(steps, Some(code))
      case Ok(step) =>
        if !Fits(bytes(step), retained) then Trace(steps, Some(ResultLimit))
        else Continue(decide, bytes, points, i + 1, steps + [step], retained + bytes(step), NextState(step, state))
  }

  function Replayed(
    lib: Libraries, d: MarketData, points: seq<Point>, config: Config, definition: Definition, deadline: int): Trace {
    Continue(DeciderOf(lib, d, config, definition, deadline), lib.bytes, points, 0, [], 0, config.initialState)
  }

  /** The loop over the schedule. */
  method Loop(decide: Decider, bytes: Step -> nat, points: seq<Point>, initial: Option<State>) returns (trace: Trace)
    ensures trace == Continue(decide, bytes, points, 0, [], 0, initial)
  {
    var steps: seq<Step>, retained: nat, state := [], 0, initial;
    for i := 0 to |points|
      invariant Continue(decide, bytes, points, 0, [], 0, initial)
             == Continue(decide, bytes, points, i, steps, retained, state)
    {
      var decided := decide(i, points[i], state);
      if decided.Err? { return Trace(steps, Some(decided.error)); }
      var size := bytes(decided.value);
      if !Fits(size, retained) { return Trace(steps, Some(ResultLimit)); }
      steps := steps + [decided.value];
      retained := retained + size;
      state := NextState(decided.value, state);
    }
    return Trace(steps, None);
  }

  /** One replay; `now` is the clock when the loop starts, and `admitted` says that the inputs are within
    * their size limits and that the calendar and the strategy definition pass their own validation. */
  method RunReplay(
    lib: Libraries, d: MarketData, points: seq<Point>, config: Config, definition: Definition, admitted: bool, now: int)
    returns (r: Result<Trace, Code>)
    ensures r.Err? <==> !admitted || !Accepts(d, points, config, definition)
    ensures r.Err? ==> r.error == InputInvalid
    ensures r.Ok? ==> r.value == Replayed(lib, d, points, config, definition, now + 1000 * config.duration)
  {
    if !admitted || !Accepts(d, points, config, definition) { return Err(InputInvalid); }
    var decide := DeciderOf(lib, d, config, definition, now + 1000 * config.duration);
    var trace := Loop(decide, lib.bytes, points, config.initialState);
    return Ok(trace);
  }
}
