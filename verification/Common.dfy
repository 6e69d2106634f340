/** Datatypes shared by every component of the model. */
module Common {

  datatype Option<+T> = None | Some(value: T)

  /** A source function that either returns or raises an error with a stable code. */
  datatype Result<+T, +E> = Ok(value: T) | Err(error: E)

  /** One of a list of checks made in order: whether it fails, and the error it then raises. */
  datatype Check<+E> = Check(fails: bool, error: E)

  /** Check `i` fails and none before it does. */
  predicate FirstFailure<E>(checks: seq<Check<E>>, i: nat) {
    i < |checks| && checks[i].fails && forall j | 0 <= j < i :: !checks[j].fails
  }

  predicate NoFailure<E>(checks: seq<Check<E>>) {
    forall j | 0 <= j < |checks| :: !checks[j].fails
  }

  /** The answer is the error of the first failing check, and no error if none fails. */
  ghost predicate AnswersFirst<E(!new)>(checks: seq<Check<E>>, answer: Option<E>) {
    && (NoFailure(checks) <==> answer.None?)
    && (forall i: nat {:trigger FirstFailure(checks, i)} :: FirstFailure(checks, i) ==> answer == Some(checks[i].error))
  }

  /** Checks made after other checks. */
  lemma AnswersInTurn<E(!new)>(first: seq<Check<E>>, x: Option<E>, second: seq<Check<E>>, y: Option<E>)
    requires AnswersFirst(first, x) && AnswersFirst(second, y)
    ensures AnswersFirst(first + second, if x.Some? then x else y)
  {
    var all, n := first + second, |first|;
    assert forall j | 0 <= j < n :: all[j] == first[j];
    assert forall j | 0 <= j < |second| :: all[n + j] == second[j];
    if NoFailure(all) {
      assert NoFailure(first);
      forall j | 0 <= j < |second| ensures !second[j].fails { assert !all[n + j].fails; }
    }
    forall i: nat | FirstFailure(all, i) ensures (if x.Some? then x else y) == Some(all[i].error) {
      if i < n {
        assert FirstFailure(first, i);
      } else {
        assert NoFailure(first);
        forall j | 0 <= j < i - n ensures !second[j].fails { assert !all[n + j].fails; }
        assert FirstFailure(second, i - n);
      }
    }
  }

  lemma OneAnswers<E(!new)>(check: Check<E>)
    ensures AnswersFirst([check], if check.fails then Some(check.error) else None)
  {
    assert FirstFailure([check], 0) <==> check.fails;
    assert [check][0] == check;
  }

  /** The error of the first of three checks to fail. */
  function FirstOfThree<E>(a: Check<E>, b: Check<E>, c: Check<E>): Option<E> {
    if a.fails then Some(a.error) else if b.fails then Some(b.error) else if c.fails then Some(c.error) else None
  }

  lemma ThreeAnswer<E(!new)>(a: Check<E>, b: Check<E>, c: Check<E>)
    ensures AnswersFirst([a, b, c], FirstOfThree(a, b, c))
  {
    var all := [a, b, c];
    assert all[0] == a && all[1] == b && all[2] == c;
    assert NoFailure(all) || a.fails || b.fails || c.fails;
  }
}
