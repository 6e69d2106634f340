/** What each point of a replay sees and answers, said over the dataset, the libraries and the clock. */
module ReplayLaws {
  import opened Common
  import opened Replay
  import opened ReplayTheorems

  // ----- Which inputs are accepted -----

  predicate BarsOk(d: MarketData) {
    && 1 <= |d.bars| <= 500
    && (forall b | b in d.bars ::
          && b.bar.instrument == d.instrument && b.bar.interval == d.timeframe
          && b.bar.start < b.closedAt
          && b.closedAt <= b.bar.provenance.observedAt && b.closedAt <= b.bar.provenance.receivedAt
          && b.bar.provenance.source == d.bars[0].bar.provenance.source)
    && forall i :: 0 < i < |d.bars| ==> d.bars[i - 1].bar.start < d.bars[i].bar.start
  }

  /** The quote was observed later, or as late and received later. */
  predicate Later(q: Quote, p: Quote) {
    || q.provenance.observedAt > p.provenance.observedAt
    || (q.provenance.observedAt == p.provenance.observedAt && q.provenance.receivedAt > p.provenance.receivedAt)
  }

  predicate QuotesOk(d: MarketData) {
    && 1 <= |d.quotes| <= 500
    && (forall q | q in d.quotes :: q.instrument == d.instrument)
    && forall i :: 0 < i < |d.quotes| ==> Later(d.quotes[i], d.quotes[i - 1])
  }

  /** Everything a point names is known by its clock, and its expected starts are distinct and in order. */
  predicate PointKnown(p: Point) {
    && p.availableAt <= p.asOf && p.portfolio.asOf <= p.asOf
    && p.portfolio.provenance.observedAt <= p.asOf && p.portfolio.provenance.receivedAt <= p.asOf
    && 1 <= |p.expectedStarts| <= 500
    && (forall i :: 0 < i < |p.expectedStarts| ==> p.expectedStarts[i - 1] < p.expectedStarts[i])
    && forall start | start in p.expectedStarts :: start <= p.asOf
  }

  predicate ScheduleOk(points: seq<Point>) {
    && 1 <= |points| <= 64 && (forall p | p in points :: PointKnown(p))
    && forall i :: 0 < i < |points| ==> points[i - 1].asOf < points[i].asOf
  }

  predicate ConfigOk(config: Config, definition: Definition, start: int) {
    && 1 <= config.duration <= 120 && config.maxAge <= 86400 && config.wallTimeout <= 10000
    && match config.initialState
       case None => true
       case Some(s) => s.strategy == definition.name && s.version == definition.version && s.updatedAt <= start
  }

  /** Neighbours in order are all in order. */
  lemma {:induction false} Ascends(keys: seq<int>, i: nat, j: nat)
    requires forall k :: 0 < k < |keys| ==> keys[k - 1] < keys[k]
    requires i < j < |keys|
    ensures keys[i] < keys[j]
  {
    if i + 1 < j { Ascends(keys, i, j - 1); }
  }

  lemma {:induction false} QuotesAscend(quotes: seq<Quote>, i: nat, j: nat)
    requires forall k :: 0 < k < |quotes| ==> Later(quotes[k], quotes[k - 1])
    requires i < j < |quotes|
    ensures Later(quotes[j], quotes[i])
  {
    if i + 1 < j { QuotesAscend(quotes, i, j - 1); }
  }

  lemma DataOkIff(d: MarketData)
    ensures DataOk(d) <==> BarsOk(d) && QuotesOk(d)
  {
    if BarsOk(d) && QuotesOk(d) {
      var starts := seq(|d.bars|, i requires 0 <= i < |d.bars| => d.bars[i].bar.start);
      forall i, j | 0 <= i < j < |d.bars|
        ensures d.bars[i].bar.start < d.bars[j].bar.start
        ensures d.bars[i].bar.provenance.source == d.bars[j].bar.provenance.source {
        Ascends(starts, i, j);
        assert d.bars[i] in d.bars && d.bars[j] in d.bars;
      }
      forall i, j | 0 <= i < j < |d.quotes| ensures EarlierClock(d.quotes[i].provenance, d.quotes[j].provenance) {
        QuotesAscend(d.quotes, i, j);
      }
    }
    if DataOk(d) { BarsAreOk(d); }
  }

  lemma BarsAreOk(d: MarketData)
    requires DataOk(d)
    ensures BarsOk(d)
  {
    forall b | b in d.bars ensures b.bar.provenance.source == d.bars[0].bar.provenance.source {
      var i :| 0 <= i < |d.bars| && d.bars[i] == b;
    }
  }

  lemma PointOkIff(p: Point)
    ensures PointOk(p) <==> PointKnown(p)
  {
    if PointKnown(p) {
      forall i, j | 0 <= i < j < |p.expectedStarts| ensures p.expectedStarts[i] < p.expectedStarts[j] {
        Ascends(p.expectedStarts, i, j);
      }
      assert p.expectedStarts[|p.expectedStarts| - 1] in p.expectedStarts;
    }
  }

  /** Input is accepted if and only if its bars and quotes are complete, owned and in order, its schedule is in order
    * and knows nothing of the future, and its limits and its initial state are in range. */
  lemma AcceptsIff(d: MarketData, points: seq<Point>, config: Config, definition: Definition)
    ensures Accepts(d, points, config, definition)
            <==> BarsOk(d) && QuotesOk(d) && ScheduleOk(points) && ConfigOk(config, definition, points[0].asOf)
  {
    DataOkIff(d);
    forall p | p in points ensures PointOk(p) <==> PointKnown(p) { PointOkIff(p); }
    if ScheduleOk(points) {
      var clocks := seq(|points|, i requires 0 <= i < |points| => points[i].asOf);
      forall i, j | 0 <= i < j < |points| ensures points[i].asOf < points[j].asOf { Ascends(clocks, i, j); }
    }
  }

  // ----- What a point sees -----

  predicate KnownBy(p: Provenance, cutoff: int) { p.observedAt <= cutoff && p.receivedAt <= cutoff }

  predicate SomeQuote(d: MarketData, cutoff: int) { exists q :: q in d.quotes && KnownBy(q.provenance, cutoff) }

  predicate SomeBar(d: MarketData, cutoff: int) { exists b :: b in d.bars && BarKnown(b, cutoff) }

  predicate BarKnown(b: ClosedBar, cutoff: int) { b.closedAt <= cutoff && KnownBy(b.bar.provenance, cutoff) }

  /** A known quote, and no known quote is later. */
  predicate Newest(d: MarketData, cutoff: int, quote: Quote) {
    && quote in d.quotes && KnownBy(quote.provenance, cutoff)
    && forall q | q in d.quotes && KnownBy(q.provenance, cutoff) :: !Later(q, quote)
  }

  /** Exactly the known bars, in order of their starts. */
  ghost predicate KnownBars(d: MarketData, cutoff: int, bars: seq<Bar>) {
    && (forall b :: b in bars <==> exists closed :: closed in d.bars && BarKnown(closed, cutoff) && closed.bar == b)
    && forall i, j :: 0 <= i < j < |bars| ==> bars[i].start < bars[j].start
  }

  /** One provenance for all bars: their source, the latest clocks, and every delay and flag. */
  ghost predicate Summarises(p: Provenance, bars: seq<Bar>) {
    && (bars != [] ==> p.source == bars[0].provenance.source)
    && (forall b | b in bars :: b.provenance.observedAt <= p.observedAt && b.provenance.receivedAt <= p.receivedAt)
    && (exists b :: b in bars && b.provenance.observedAt == p.observedAt)
    && (exists b :: b in bars && b.provenance.receivedAt == p.receivedAt)
    && (p.delayed <==> exists b :: b in bars && b.provenance.delayed)
    && (forall flag :: flag in p.flags <==> exists b :: b in bars && flag in b.provenance.flags)
  }

  ghost predicate IsPage(d: MarketData, cutoff: int, page: Page) {
    && page.instrument == d.instrument.id && page.interval == d.timeframe
    && KnownBars(d, cutoff, page.bars) && Summarises(page.provenance, page.bars)
  }

  lemma {:induction false} EnvelopeSummarises(bars: seq<Bar>)
    requires bars != []
    ensures Summarises(Envelope(bars), bars)
    decreases |bars|
  {
    var last := bars[|bars| - 1];
    assert last in bars;
    if |bars| > 1 {
      var before := bars[..|bars| - 1];
      EnvelopeSummarises(before);
      assert bars == before + [last];
      LongerSummary(Envelope(before), before, last);
    }
  }

  lemma LongerSummary(p: Provenance, bars: seq<Bar>, last: Bar)
    requires Summarises(p, bars) && bars != []
    ensures var q := last.provenance;
      Summarises(Provenance(p.source, Max(p.observedAt, q.observedAt), Max(p.receivedAt, q.receivedAt),
                            p.delayed || q.delayed, p.flags + q.flags), bars + [last])
  {
    var longer := bars + [last];
    assert last in longer && forall b | b in bars :: b in longer;
    assert longer[0] == bars[0];
  }

  predicate Ordered(bars: seq<ClosedBar>) {
    forall i, j :: 0 <= i < j < |bars| ==> bars[i].bar.start < bars[j].bar.start
  }

  lemma {:induction false} BarsStayOrdered(bars: seq<ClosedBar>, cutoff: int)
    requires Ordered(bars)
    ensures Ordered(VisibleBars(bars, cutoff))
  {
    if bars != [] {
      var rest := bars[1..];
      assert forall i :: 0 <= i < |rest| ==> rest[i] == bars[i + 1];
      BarsStayOrdered(rest, cutoff);
      VisibleBarsAre(rest, cutoff);
      if BarVisible(bars[0], cutoff) {
        forall b | b in VisibleBars(rest, cutoff) ensures bars[0].bar.start < b.bar.start {
          var i :| 0 <= i < |rest| && rest[i] == b;
        }
        OrderedInFront(bars[0], VisibleBars(rest, cutoff));
      }
    }
  }

  lemma OrderedInFront(b: ClosedBar, bars: seq<ClosedBar>)
    requires Ordered(bars) && forall c :: c in bars ==> b.bar.start < c.bar.start
    ensures Ordered([b] + bars)
  {
    var all := [b] + bars;
    forall i, j | 0 <= i < j < |all| ensures all[i].bar.start < all[j].bar.start {
      assert all[j] == bars[j - 1];
      if i > 0 { assert all[i] == bars[i - 1]; }
    }
  }

  lemma VisibleBarsAreKnown(d: MarketData, cutoff: int)
    requires DataOk(d)
    ensures KnownBars(d, cutoff, Items(VisibleBars(d.bars, cutoff)))
    ensures VisibleBars(d.bars, cutoff) == [] <==> !SomeBar(d, cutoff)
  {
    var seen := VisibleBars(d.bars, cutoff);
    VisibleBarsAre(d.bars, cutoff);
    BarsStayOrdered(d.bars, cutoff);
    ItemsAre(seen);
    forall b ensures b in Items(seen)
      <==> exists closed :: closed in d.bars && BarKnown(closed, cutoff) && closed.bar == b {
      if b in Items(seen) {
        var closed :| closed in seen && closed.bar == b;
        assert BarKnown(closed, cutoff);
      }
      if closed :| closed in d.bars && BarKnown(closed, cutoff) && closed.bar == b { assert closed in seen; }
    }
    if seen != [] { assert seen[0] in d.bars && BarKnown(seen[0], cutoff); }
    if b :| b in d.bars && BarKnown(b, cutoff) { assert b in seen; }
  }

  lemma LatestIsNewest(d: MarketData, cutoff: int)
    ensures VisibleQuotes(d.quotes, cutoff) == [] <==> !SomeQuote(d, cutoff)
    ensures SomeQuote(d, cutoff) ==> Newest(d, cutoff, Latest(VisibleQuotes(d.quotes, cutoff)))
  {
    var seen := VisibleQuotes(d.quotes, cutoff);
    VisibleQuotesAre(d.quotes, cutoff);
    if seen != [] {
      assert seen[0] in d.quotes && KnownBy(seen[0].provenance, cutoff);
      LatestIsLatest(seen);
    }
    if q :| q in d.quotes && KnownBy(q.provenance, cutoff) { assert q in seen; }
  }

  predicate Bad(p: Provenance, cutoff: int, maxAge: nat) {
    p.flags != {} || p.delayed || p.observedAt + maxAge < cutoff
  }

  function ExpectationOf(d: MarketData, point: Point, config: Config, page: Page): Expectation {
    Expectation(d.instrument, page.provenance.source, d.timeframe, point.asOf, config.maxAge, point.expectedStarts)
  }

  /** Why a point has no context, in the order of the checks, given its newest quote and its page of bars. */
  function ContextChecks(
    lib: Libraries, d: MarketData, point: Point, config: Config, state: Option<State>, quote: Quote, someQuote: bool,
    page: Page, someBar: bool): seq<Check<Code>>
  {
    var cutoff, computed := point.asOf, lib.indicators(page, ExpectationOf(d, point, config, page));
    [ Check(d.instrument.identityAsOf > cutoff, FutureIdentity),
      Check(Bad(point.portfolio.provenance, cutoff, config.maxAge), PortfolioQuality),
      Check(!someQuote, QuoteUnavailable)] +
    [ Check(Bad(quote.provenance, cutoff, config.maxAge) || quote.bid.None? || quote.ask.None?, QuoteQuality),
      Check(!someBar, BarsUnavailable),
      Check(computed.Raised?, StepInvalid)] +
    [ Check(computed.Incomplete? || (computed.Computed? && computed.indicators.flags != {}), BarQuality),
      Check(state.Some? && state.value.updatedAt > cutoff, StepInvalid)]
  }

  function ErrorOf<T>(r: Result<T, Code>): Option<Code> {
    if r.Err? then Some(r.error) else None
  }

  lemma ContextChecked(
    lib: Libraries, d: MarketData, point: Point, config: Config, state: Option<State>, quote: Quote, page: Page)
    requires var quotes := VisibleQuotes(d.quotes, point.asOf); quotes != [] ==> quote == Latest(quotes)
    requires var bars := Items(VisibleBars(d.bars, point.asOf));
      bars != [] ==> page == Page(d.instrument.id, d.timeframe, bars, Envelope(bars))
    ensures var someQuote := VisibleQuotes(d.quotes, point.asOf) != [];
      var someBar := VisibleBars(d.bars, point.asOf) != [];
      AnswersFirst(ContextChecks(lib, d, point, config, state, quote, someQuote, page, someBar),
                   ErrorOf(VisibleContext(lib, d, point, config, state)))
  {
    var someQuote, someBar := VisibleQuotes(d.quotes, point.asOf) != [], VisibleBars(d.bars, point.asOf) != [];
    var all := ContextChecks(lib, d, point, config, state, quote, someQuote, page, someBar);
    EightAnswer(all[0], all[1], all[2], all[3], all[4], all[5], all[6], all[7]);
  }

  lemma EightAnswer(
    a: Check<Code>, b: Check<Code>, c: Check<Code>, d: Check<Code>, e: Check<Code>, f: Check<Code>, g: Check<Code>,
    h: Check<Code>)
    ensures var x, y := FirstOfThree(a, b, c), FirstOfThree(d, e, f);
      var z := if g.fails then Some(g.error) else if h.fails then Some(h.error) else None;
      AnswersFirst([a, b, c] + [d, e, f] + [g, h], if x.Some? then x else if y.Some? then y else z)
  {
    var x, y := FirstOfThree(a, b, c), FirstOfThree(d, e, f);
    ThreeAnswer(a, b, c);
    ThreeAnswer(d, e, f);
    AnswersInTurn([a, b, c], x, [d, e, f], y);
    OneAnswers(g);
    OneAnswers(h);
    AnswersInTurn([g], if g.fails then Some(g.error) else None, [h], if h.fails then Some(h.error) else None);
    assert [g] + [h] == [g, h];
    AnswersInTurn([a, b, c] + [d, e, f], if x.Some? then x else y, [g, h],
                  if g.fails then Some(g.error) else if h.fails then Some(h.error) else None);
  }

  /** What a point may be decided on: its newest known quote and its page of exactly the known bars. */
  lemma PointSees(d: MarketData, cutoff: int) returns (quote: Quote, page: Page)
    requires DataOk(d)
    ensures SomeQuote(d, cutoff) ==> Newest(d, cutoff, quote)
    ensures SomeBar(d, cutoff) ==> IsPage(d, cutoff, page)
    ensures var quotes := VisibleQuotes(d.quotes, cutoff);
      (quotes != [] <==> SomeQuote(d, cutoff)) && (quotes != [] ==> quote == Latest(quotes))
    ensures var bars := Items(VisibleBars(d.bars, cutoff));
      && (VisibleBars(d.bars, cutoff) != [] <==> SomeBar(d, cutoff))
      && (bars != [] ==> page == Page(d.instrument.id, d.timeframe, bars, Envelope(bars)))
  {
    var quotes, bars := VisibleQuotes(d.quotes, cutoff), Items(VisibleBars(d.bars, cutoff));
    LatestIsNewest(d, cutoff);
    VisibleBarsAreKnown(d, cutoff);
    quote := if quotes == [] then d.quotes[0] else Latest(quotes);
    if bars != [] { EnvelopeSummarises(bars); }
    page := Page(d.instrument.id, d.timeframe, bars, if bars == [] then quote.provenance else Envelope(bars));
  }

  predicate ContextIs(
    context: Context, lib: Libraries, d: MarketData, point: Point, config: Config, state: Option<State>, quote: Quote,
    page: Page)
  {
    && context.asOf == point.asOf && context.quote == quote && context.page == page
    && context.portfolio == point.portfolio && context.state == state
    && lib.indicators(page, ExpectationOf(d, point, config, page)) == Computed(context.indicators)
  }

  lemma ContextFound(
    lib: Libraries, d: MarketData, point: Point, config: Config, state: Option<State>, quote: Quote, page: Page)
    requires var quotes := VisibleQuotes(d.quotes, point.asOf); quotes != [] ==> quote == Latest(quotes)
    requires var bars := Items(VisibleBars(d.bars, point.asOf));
      bars != [] ==> page == Page(d.instrument.id, d.timeframe, bars, Envelope(bars))
    requires VisibleContext(lib, d, point, config, state).Ok?
    ensures ContextIs(VisibleContext(lib, d, point, config, state).value, lib, d, point, config, state, quote, page)
  {
  }

  /** A point's context is its newest known quote and exactly its known bars, or the error of the first check that
    * fails. */
  lemma ContextAnswers(
    lib: Libraries, d: MarketData, point: Point, config: Config, state: Option<State>)
    returns (quote: Quote, page: Page)
    requires DataOk(d)
    ensures SomeQuote(d, point.asOf) ==> Newest(d, point.asOf, quote)
    ensures SomeBar(d, point.asOf) ==> IsPage(d, point.asOf, page)
    ensures var r, cutoff := VisibleContext(lib, d, point, config, state), point.asOf;
      var checks := ContextChecks(lib, d, point, config, state, quote, SomeQuote(d, cutoff), page, SomeBar(d, cutoff));
      && AnswersFirst(checks, ErrorOf(r))
      && (r.Ok? ==> ContextIs(r.value, lib, d, point, config, state, quote, page))
  {
    quote, page := PointSees(d, point.asOf);
    ContextChecked(lib, d, point, config, state, quote, page);
    if VisibleContext(lib, d, point, config, state).Ok? { ContextFound(lib, d, point, config, state, quote, page); }
  }

  // ----- What a point answers -----

  /** The time a worker gets: what is left, at least one millisecond, and never more than its own limit. */
  predicate IsBudget(ms: int, left: int, limit: nat) {
    && ms <= limit && (ms == limit || ms == left || ms == 1)
    && (left > 1 ==> ms <= left) && (left <= 1 ==> ms <= 1)
    && (limit >= 1 ==> ms >= 1) && (ms < limit ==> ms >= left)
  }

  lemma BudgetIs(lib: Libraries, config: Config, i: nat, deadline: int)
    ensures IsBudget(Budget(lib, config, i, deadline), deadline - lib.clock(i, Budgeting), config.wallTimeout)
  {
  }

  function ResultOf(worker: Option<WorkerResult>): StrategyResult {
    if worker.Some? && worker.value.result.Some? then worker.value.result.value else StrategyResult([], None)
  }

  predicate Foreign(s: State, definition: Definition, asOf: int) {
    s.strategy != definition.name || s.version != definition.version || s.updatedAt > asOf
  }

  /** Why a worker's answer is not used, in the order of the checks. */
  function WorkerChecks(
    late: bool, config: Config, definition: Definition, point: Point, context: Context,
    worker: Option<WorkerResult>): seq<Check<Code>>
  {
    var next := ResultOf(worker).nextState;
    [ Check(worker.None?, StepInvalid),
      Check(late, Timeout),
      Check(worker.Some? && (!worker.value.success || worker.value.result.None?), WorkerFailed)] +
    [ Check(worker.Some? && !(worker.value.input == context && worker.value.params == config.params
                              && worker.value.definition == definition), WorkerBinding),
      Check(|ResultOf(worker).signals| > 1, MultipleSignals),
      Check(next.Some? && Foreign(next.value, definition, point.asOf), StateInvalid)]
  }

  /** What the libraries make of the first signal. */
  datatype Treatment = Treatment(signal: Option<Signal>, sizing: Option<Sizing>, risk: Option<Risk>)

  function TreatmentOf(lib: Libraries, point: Point, context: Context, result: StrategyResult): Treatment {
    var signal := if result.signals == [] then None else lib.parse(result.signals[0], context);
    var sizing := if signal.None? then None else lib.size(signal.value, context.quote, point.portfolio, context);
    var risk := if sizing.None? || sizing.value.candidate.None? then None
                else lib.risk(sizing.value.candidate.value, point, context.quote, context);
    Treatment(signal, sizing, risk)
  }

  /** Why a signal does not become a step, in the order of the checks. */
  function SignalChecks(
    late: bool, definition: Definition, point: Point, result: StrategyResult, t: Treatment): seq<Check<Code>>
  {
    var some, sized := result.signals != [], t.sizing.Some? && t.sizing.value.candidate.Some?;
    [ Check(some && t.signal.None?, StepInvalid),
      Check(t.signal.Some? && (t.signal.value.strategy != definition.name
                               || t.signal.value.version != definition.version), SignalInvalid),
      Check(some && (t.sizing.None? || t.sizing.value.asOf != point.asOf), StepInvalid)] +
    [ Check(sized && (t.risk.None? || t.risk.value.candidate != t.sizing.value.candidate.value
                      || t.risk.value.decidedAt != point.asOf), StepInvalid),
      Check(late, Timeout)]
  }

  lemma SignalAnswers(
    lib: Libraries, definition: Definition, point: Point, context: Context, result: StrategyResult, late: bool)
    ensures var r, t := SizeAndRisk(lib, definition, point, context, result), TreatmentOf(lib, point, context, result);
      && AnswersFirst(SignalChecks(late, definition, point, result, t),
                      if r.Ok? && late then Some(Timeout) else ErrorOf(r))
      && (r.Ok? ==> r.value == Step(context, result, t.sizing, t.risk))
  {
    var t := TreatmentOf(lib, point, context, result);
    var all := SignalChecks(late, definition, point, result, t);
    ThreeAnswer(all[0], all[1], all[2]);
    OneAnswers(all[3]);
    OneAnswers(all[4]);
    AnswersInTurn([all[3]], if all[3].fails then Some(all[3].error) else None,
                  [all[4]], if all[4].fails then Some(all[4].error) else None);
    assert [all[3]] + [all[4]] == [all[3], all[4]];
    AnswersInTurn([all[0], all[1], all[2]], FirstOfThree(all[0], all[1], all[2]), [all[3], all[4]],
                  if all[3].fails then Some(all[3].error) else if all[4].fails then Some(all[4].error) else None);
  }

  /** How a point is decided once its context is known. */
  function AfterContext(
    lib: Libraries, config: Config, definition: Definition, deadline: int, i: nat, point: Point, context: Context,
    worker: Option<WorkerResult>): seq<Check<Code>>
  {
    var result := ResultOf(worker);
    WorkerChecks(lib.clock(i, Worked) >= deadline, config, definition, point, context, worker)
    + SignalChecks(lib.clock(i, Decided) >= deadline, definition, point, result,
                   TreatmentOf(lib, point, context, result))
  }

  /** What a point answers: a timeout before anything; then its context's error; then the error of the first check of
    * the worker's answer and its signal that fails; and otherwise the step, with what the libraries made of it. */
  lemma DecideAnswers(
    lib: Libraries, d: MarketData, config: Config, definition: Definition, deadline: int, i: nat, point: Point,
    state: Option<State>) returns (ms: int)
    ensures IsBudget(ms, deadline - lib.clock(i, Budgeting), config.wallTimeout)
    ensures var r, visible := Decide(lib, d, config, definition, deadline, i, point, state),
                              VisibleContext(lib, d, point, config, state);
      if lib.clock(i, Entering) >= deadline then r == Err(Timeout)
      else if visible.Err? then r == Err(visible.error)
      else
        var context := visible.value;
        var worker := lib.worker(i, context, ms);
        && AnswersFirst(AfterContext(lib, config, definition, deadline, i, point, context, worker), ErrorOf(r))
        && (r.Ok? ==>
              var t := TreatmentOf(lib, point, context, ResultOf(worker));
              r.value == Step(context, ResultOf(worker), t.sizing, t.risk))
  {
    ms := Budget(lib, config, i, deadline);
    BudgetIs(lib, config, i, deadline);
    var visible := VisibleContext(lib, d, point, config, state);
    if visible.Ok? {
      var context := visible.value;
      var worker := lib.worker(i, context, ms);
      var late := lib.clock(i, Worked) >= deadline;
      var all := WorkerChecks(late, config, definition, point, context, worker);
      ThreeAnswer(all[0], all[1], all[2]);
      ThreeAnswer(all[3], all[4], all[5]);
      var x, y := FirstOfThree(all[0], all[1], all[2]), FirstOfThree(all[3], all[4], all[5]);
      AnswersInTurn([all[0], all[1], all[2]], x, [all[3], all[4], all[5]], y);
      var result, last := ResultOf(worker), lib.clock(i, Decided) >= deadline;
      SignalAnswers(lib, definition, point, context, result, last);
      var r := SizeAndRisk(lib, definition, point, context, result);
      AnswersInTurn(all, if x.Some? then x else y,
                    SignalChecks(last, definition, point, result, TreatmentOf(lib, point, context, result)),
                    if r.Ok? && last then Some(Timeout) else ErrorOf(r));
    }
  }

  // ----- Runs -----

  /** At most one signal, sized if there is one, and judged if the sizing gave a candidate, for that candidate and at
    * the point's clock. */
  predicate Judged(step: Step, asOf: int) {
    && |step.result.signals| <= 1
    && (step.sizing.Some? <==> |step.result.signals| == 1)
    && (step.sizing.Some? ==> step.sizing.value.asOf == asOf)
    && (step.risk.Some? <==> step.sizing.Some? && step.sizing.value.candidate.Some?)
    && (step.risk.Some? ==> step.sizing.value.candidate == Some(step.risk.value.candidate)
                            && step.risk.value.decidedAt == asOf)
  }

  lemma DecidedIsJudged(
    lib: Libraries, d: MarketData, config: Config, definition: Definition, deadline: int, i: nat, point: Point,
    state: Option<State>)
    ensures var r := Decide(lib, d, config, definition, deadline, i, point, state);
      r.Ok? ==> Judged(r.value, point.asOf)
  {
  }

  function Bytes(bytes: Step -> nat, steps: seq<Step>): nat {
    if steps == [] then 0 else Bytes(bytes, steps[..|steps| - 1]) + bytes(steps[|steps| - 1])
  }

  /** The state after some steps: the last one a strategy gave, or the initial one. */
  function LastState(steps: seq<Step>, initial: Option<State>): Option<State> {
    if steps == [] then initial
    else if steps[|steps| - 1].result.nextState.Some? then steps[|steps| - 1].result.nextState
    else LastState(steps[..|steps| - 1], initial)
  }

  /** The steps so far are the decisions of their points, each from the state the ones before it left, and small
    * enough to keep. */
  ghost predicate Kept(
    decide: Decider, bytes: Step -> nat, points: seq<Point>, initial: Option<State>, steps: seq<Step>)
  {
    && |steps| <= |points|
    && forall k :: 0 <= k < |steps| ==>
         && decide(k, points[k], LastState(steps[..k], initial)) == Ok(steps[k])
         && bytes(steps[k]) <= 262144 && Bytes(bytes, steps[..k]) + bytes(steps[k]) <= 2097152
  }

  /** Why a run stops: its schedule ended, its next point failed, or its next step is too large to keep. */
  ghost predicate Stops(decide: Decider, bytes: Step -> nat, points: seq<Point>, initial: Option<State>, t: Trace) {
    var n := |t.steps|;
    if t.error.None? then n == |points|
    else
      && n < |points|
      && var next := decide(n, points[n], LastState(t.steps, initial));
         if next.Err? then t.error == Some(next.error)
         else
           && t.error == Some(ResultLimit)
           && (bytes(next.value) > 262144 || Bytes(bytes, t.steps) + bytes(next.value) > 2097152)
  }

  lemma KeptExtends(
    decide: Decider, bytes: Step -> nat, points: seq<Point>, initial: Option<State>, steps: seq<Step>, step: Step)
    requires Kept(decide, bytes, points, initial, steps) && |steps| < |points|
    requires decide(|steps|, points[|steps|], LastState(steps, initial)) == Ok(step)
    requires bytes(step) <= 262144 && Bytes(bytes, steps) + bytes(step) <= 2097152
    ensures Kept(decide, bytes, points, initial, steps + [step])
    ensures Bytes(bytes, steps + [step]) == Bytes(bytes, steps) + bytes(step)
    ensures LastState(steps + [step], initial)
         == if step.result.nextState.Some? then step.result.nextState else LastState(steps, initial)
  {
    var longer := steps + [step];
    assert longer[..|longer| - 1] == steps && longer[|longer| - 1] == step;
    forall k | 0 <= k < |longer|
      ensures decide(k, points[k], LastState(longer[..k], initial)) == Ok(longer[k])
      ensures bytes(longer[k]) <= 262144 && Bytes(bytes, longer[..k]) + bytes(longer[k]) <= 2097152 {
      if k < |steps| { assert longer[..k] == steps[..k] && longer[k] == steps[k]; }
    }
  }

  ghost predicate Answers(decide: Decider, bytes: Step -> nat, points: seq<Point>, initial: Option<State>, t: Trace) {
    Kept(decide, bytes, points, initial, t.steps) && Stops(decide, bytes, points, initial, t)
  }

  predicate TooLarge(next: Result<Step, Code>, bytes: Step -> nat, retained: nat) {
    next.Ok? && (bytes(next.value) > 262144 || retained + bytes(next.value) > 2097152)
  }

  lemma StopsHere(
    decide: Decider, bytes: Step -> nat, points: seq<Point>, initial: Option<State>, steps: seq<Step>)
    requires Kept(decide, bytes, points, initial, steps)
    ensures |steps| == |points| ==> Answers(decide, bytes, points, initial, Trace(steps, None))
    ensures |steps| < |points| ==>
      var next := decide(|steps|, points[|steps|], LastState(steps, initial));
      && (next.Err? ==> Answers(decide, bytes, points, initial, Trace(steps, Some(next.error))))
      && (TooLarge(next, bytes, Bytes(bytes, steps)) ==>
            Answers(decide, bytes, points, initial, Trace(steps, Some(ResultLimit))))
  {
  }

  /** What one turn of the loop gives, for a property of the steps so far and one of the traces. */
  ghost predicate Turn(
    decide: Decider, bytes: Step -> nat, points: seq<Point>, initial: Option<State>, kept: seq<Step> -> bool,
    good: Trace -> bool, steps: seq<Step>)
  {
    && |steps| <= |points|
    && if |steps| == |points| then good(Trace(steps, None))
       else
         var next := decide(|steps|, points[|steps|], LastState(steps, initial));
         if next.Err? then good(Trace(steps, Some(next.error)))
         else if TooLarge(next, bytes, Bytes(bytes, steps)) then good(Trace(steps, Some(ResultLimit)))
         else kept(steps + [next.value])
  }

  ghost predicate Turns(
    decide: Decider, bytes: Step -> nat, points: seq<Point>, initial: Option<State>, kept: seq<Step> -> bool,
    good: Trace -> bool)
  {
    forall steps :: kept(steps) ==> Turn(decide, bytes, points, initial, kept, good, steps)
  }

  lemma {:induction false} ContinueAnswers(
    decide: Decider, bytes: Step -> nat, points: seq<Point>, initial: Option<State>, kept: seq<Step> -> bool,
    good: Trace -> bool, i: nat, steps: seq<Step>, retained: nat, state: Option<State>)
    requires Turns(decide, bytes, points, initial, kept, good)
    requires i == |steps| && kept(steps) && retained == Bytes(bytes, steps) && state == LastState(steps, initial)
    ensures i <= |points| && good(Continue(decide, bytes, points, i, steps, retained, state))
    decreases |points| - i
  {
    if i < |points| {
      var next := decide(i, points[i], state);
      if next.Ok? && !TooLarge(next, bytes, retained) {
        var longer := steps + [next.value];
        assert longer[..|longer| - 1] == steps;
        ContinueAnswers(decide, bytes, points, initial, kept, good, i + 1, longer, retained + bytes(next.value),
                        NextState(next.value, state));
      }
    }
  }

  lemma AnswersTurn(decide: Decider, bytes: Step -> nat, points: seq<Point>, initial: Option<State>, steps: seq<Step>)
    requires Kept(decide, bytes, points, initial, steps)
    ensures Turn(decide, bytes, points, initial, s => Kept(decide, bytes, points, initial, s),
                 t => Answers(decide, bytes, points, initial, t), steps)
  {
    StopsHere(decide, bytes, points, initial, steps);
    if |steps| < |points| {
      var next := decide(|steps|, points[|steps|], LastState(steps, initial));
      if next.Ok? && !TooLarge(next, bytes, Bytes(bytes, steps)) {
        KeptExtends(decide, bytes, points, initial, steps, next.value);
      }
    }
  }

  /** A run keeps the decisions of its points in order and stops exactly where it must; and in every run a step carries
    * a risk decision if and only if its signal was sized to a candidate. */
  lemma RunAnswers(
    lib: Libraries, d: MarketData, points: seq<Point>, config: Config, definition: Definition, deadline: int)
    ensures var t := Replayed(lib, d, points, config, definition, deadline);
      var decide := DeciderOf(lib, d, config, definition, deadline);
      && Kept(decide, lib.bytes, points, config.initialState, t.steps)
      && Stops(decide, lib.bytes, points, config.initialState, t)
      && forall k :: 0 <= k < |t.steps| ==> Judged(t.steps[k], points[k].asOf)
  {
    var t := Replayed(lib, d, points, config, definition, deadline);
    var decide := DeciderOf(lib, d, config, definition, deadline);
    var kept := (s: seq<Step>) => Kept(decide, lib.bytes, points, config.initialState, s);
    var good := (t: Trace) => Answers(decide, lib.bytes, points, config.initialState, t);
    forall steps | kept(steps) ensures Turn(decide, lib.bytes, points, config.initialState, kept, good, steps) {
      AnswersTurn(decide, lib.bytes, points, config.initialState, steps);
    }
    ContinueAnswers(decide, lib.bytes, points, config.initialState, kept, good, 0, [], 0, config.initialState);
    forall k | 0 <= k < |t.steps| ensures Judged(t.steps[k], points[k].asOf) {
      var state := LastState(t.steps[..k], config.initialState);
      DecidedIsJudged(lib, d, config, definition, deadline, k, points[k], state);
    }
  }
}
