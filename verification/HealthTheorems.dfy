/** Observations converge: the merged board depends only on which observations were made. */
module HealthTheorems {
  import opened Health

  // ----- Merging is a join -----

  lemma MergeIsAJoin(a: Observation, b: Observation, c: Observation)
    ensures Merge(a, b) == Merge(b, a)
    ensures Merge(Merge(a, b), c) == Merge(a, Merge(b, c))
    ensures Merge(a, a) == a
    ensures Merge(Merge(a, b), b) == Merge(a, b)
  {
  }

  // ----- What a set of observations amounts to -----

  ghost predicate Newest(all: set<Observation>, sequence: nat) {
    && (exists o :: o in all && o.sequence == sequence)
    && (forall o :: o in all ==> o.sequence <= sequence)
  }

  ghost predicate Agreed(all: set<Observation>, sequence: nat) {
    forall p, q :: p in all && q in all && p.sequence == sequence && q.sequence == sequence ==>
      p.status == q.status && p.reason == q.reason
  }

  /** `r` has the highest sequence observed, the latest time observed at it, and what every observation at it
    * says, or a conflict if they differ. */
  ghost predicate Resolves(all: set<Observation>, r: Observation) {
    && Newest(all, r.sequence)
    && (exists o :: o in all && o.sequence == r.sequence && o.observedAt == r.observedAt)
    && (forall o :: o in all && o.sequence == r.sequence ==> o.observedAt <= r.observedAt)
    && (Agreed(all, r.sequence) ==>
          exists o :: o in all && o.sequence == r.sequence && o.status == r.status && o.reason == r.reason)
    && (!Agreed(all, r.sequence) ==> r.status == NotReady && r.reason == ObservationConflict)
  }

  lemma ResolutionIsUnique(all: set<Observation>, p: Observation, q: Observation)
    requires Resolves(all, p) && Resolves(all, q)
    ensures p == q
  {
  }

  lemma ResolvesOne(o: Observation)
    ensures Resolves({o}, o)
  {
    assert o in {o};
  }

  /** One more observation at the same sequence: its time counts, and it must agree. */
  lemma ResolvesSame(all: set<Observation>, r: Observation, o: Observation)
    requires Resolves(all, r) && o.sequence == r.sequence
    ensures Resolves(all + {o}, Merge(r, o))
  {
    var more, m := all + {o}, Merge(r, o);
    var last :| last in all && last.sequence == r.sequence && last.observedAt == r.observedAt;
    assert last in more && o in more;
    if Agreed(all, r.sequence) {
      var w :| w in all && w.sequence == r.sequence && w.status == r.status && w.reason == r.reason;
      assert w in more;
    } else {
      var p, q :| p in all && q in all && p.sequence == r.sequence && q.sequence == r.sequence
                  && !(p.status == q.status && p.reason == q.reason);
      assert p in more && q in more;
    }
  }

  lemma ResolvesNewer(all: set<Observation>, r: Observation, o: Observation)
    requires Resolves(all, r) && o.sequence > r.sequence
    ensures Resolves(all + {o}, o)
  {
    assert o in all + {o};
  }

  lemma ResolvesOlder(all: set<Observation>, r: Observation, o: Observation)
    requires Resolves(all, r) && o.sequence < r.sequence
    ensures Resolves(all + {o}, r)
  {
    var more := all + {o};
    assert Agreed(more, r.sequence) <==> Agreed(all, r.sequence);
    var last :| last in all && last.sequence == r.sequence && last.observedAt == r.observedAt;
    assert last in more;
    if Agreed(all, r.sequence) {
      var w :| w in all && w.sequence == r.sequence && w.status == r.status && w.reason == r.reason;
      assert w in more;
    }
  }

  lemma ResolvesMore(all: set<Observation>, r: Observation, o: Observation)
    requires Resolves(all, r)
    ensures Resolves(all + {o}, Merge(r, o))
  {
    if o.sequence == r.sequence {
      ResolvesSame(all, r, o);
    } else if o.sequence > r.sequence {
      ResolvesNewer(all, r, o);
    } else {
      ResolvesOlder(all, r, o);
    }
  }

  // ----- Runs -----

  /** What was observed of a declared dependency: its start and every report under its declared identity. */
  function Observed(specs: map<int, Spec>, startedAt: int, reports: seq<Report>, name: int): set<Observation>
    requires name in specs
  {
    {Observation(NotReady, Starting, startedAt, 0)}
    + (set r | r in reports && r.name == name && r.spec == specs[name] :: r.observation)
  }

  /** After any run each dependency shows what its observations amount to. */
  lemma {:induction false} BoardResolves(specs: map<int, Spec>, startedAt: int, reports: seq<Report>, name: int)
    requires name in specs
    ensures Resolves(Observed(specs, startedAt, reports, name), Run(specs, startedAt, reports).seen[name])
  {
    var start := Observation(NotReady, Starting, startedAt, 0);
    if reports == [] {
      assert Observed(specs, startedAt, reports, name) == {start};
      ResolvesOne(start);
    } else {
      var before, r := reports[..|reports| - 1], reports[|reports| - 1];
      BoardResolves(specs, startedAt, before, name);
      assert forall x :: x in reports <==> x in before || x == r;
      var all := Observed(specs, startedAt, before, name);
      if r.name == name && r.spec == specs[name] {
        assert Observed(specs, startedAt, reports, name) == all + {r.observation};
        ResolvesMore(all, Run(specs, startedAt, before).seen[name], r.observation);
      } else {
        assert Observed(specs, startedAt, reports, name) == all;
      }
    }
  }

  /** Any two runs that make the same observations, in whatever order and however often, end alike. */
  lemma ObservationsConverge(specs: map<int, Spec>, startedAt: int, a: seq<Report>, b: seq<Report>)
    requires forall r :: r in a <==> r in b
    ensures Run(specs, startedAt, a) == Run(specs, startedAt, b)
  {
    var p, q := Run(specs, startedAt, a), Run(specs, startedAt, b);
    forall name | name in specs ensures p.seen[name] == q.seen[name] {
      assert Observed(specs, startedAt, a, name) == Observed(specs, startedAt, b, name);
      BoardResolves(specs, startedAt, a, name);
      BoardResolves(specs, startedAt, b, name);
      ResolutionIsUnique(Observed(specs, startedAt, a, name), p.seen[name], q.seen[name]);
    }
  }

  predicate InConflict(o: Observation) { o.status.NotReady? && o.reason.ObservationConflict? }

  /** Sequences never go back, and a conflict lasts as long as its sequence does. */
  lemma {:induction false} ConflictClearsOnlyOnHigherSequence(
    specs: map<int, Spec>, startedAt: int, reports: seq<Report>, more: seq<Report>, name: int)
    requires name in specs
    ensures var before := Run(specs, startedAt, reports).seen[name];
      var after := Run(specs, startedAt, reports + more).seen[name];
      && before.sequence <= after.sequence
      && (InConflict(before) && after.sequence == before.sequence ==> InConflict(after))
    decreases |more|
  {
    if more == [] {
      assert reports + more == reports;
    } else {
      var n := |more| - 1;
      ConflictClearsOnlyOnHigherSequence(specs, startedAt, reports, more[..n], name);
      assert (reports + more)[..|reports + more| - 1] == reports + more[..n];
    }
  }

  /** A dependency shows a conflict exactly when two observations at its highest sequence disagree, or one of
    * them already reports a conflict and none contradicts it. */
  lemma ConflictIff(specs: map<int, Spec>, startedAt: int, reports: seq<Report>, name: int)
    requires name in specs
    ensures var all := Observed(specs, startedAt, reports, name);
      var shown := Run(specs, startedAt, reports).seen[name];
      InConflict(shown) <==>
        || !Agreed(all, shown.sequence)
        || (exists o :: o in all && o.sequence == shown.sequence && InConflict(o))
  {
    BoardResolves(specs, startedAt, reports, name);
  }
}
