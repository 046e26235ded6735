/** The two failure-aware datatypes the model uses for the source's `Option` and `Result`. */
module Outcomes {
  datatype Option<+T> = None | Some(value: T)

  datatype Result<+T, +E> = Ok(value: T) | Err(error: E) {
    predicate IsFailure() {
      Err?
    }

    function PropagateFailure<U>(): Result<U, E>
      requires Err?
    {
      Err(error)
    }

    function Extract(): T
      requires Ok?
    {
      value
    }
  }

  /** `xs` lists the elements of `s`, each exactly once: any order a hash table or a query may use. */
  ghost predicate Lists<T>(xs: seq<T>, s: set<T>) {
    && (forall x <- xs :: x in s)
    && (forall x <- s :: x in xs)
    && (forall i, j :: 0 <= i < j < |xs| ==> xs[i] != xs[j])
  }

  /** The elements of a sequence, as a set. */
  function Elements<T>(xs: seq<T>): set<T> {
    set x | x in xs
  }

  /** A failure that ends a task, and the state it leaves: the database outlives the task. */
  datatype Stop<+S, +E> = Stop(why: E, at: S)

  /** A handler did what its step function says, up to the state a failure leaves. */
  ghost predicate Did<S, E>(r: Result<(), E>, s: S, spec: Result<S, Stop<S, E>>) {
    match spec
    case Ok(s') => r == Ok(()) && s == s'
    case Err(e) => r == Err(e.why) && s == e.at
  }

  /** The state after a step, whether it failed or not. */
  function Left<S, E>(r: Result<S, Stop<S, E>>): S {
    match r
    case Ok(s) => s
    case Err(e) => e.at
  }

  /** Why a step failed, if it did. */
  function Why<S, E>(r: Result<S, Stop<S, E>>): Option<E> {
    match r
    case Ok(_) => None
    case Err(e) => Some(e.why)
  }

  lemma Regroup<T>(a: seq<T>, b: seq<T>, c: seq<T>)
    ensures a + (b + c) == (a + b) + c
  {
  }

  lemma {:induction false} ListsSize<T>(xs: seq<T>, s: set<T>)
    requires Lists(xs, s)
    ensures |xs| == |s|
  {
    if xs == [] {
      assert s == {};
    } else {
      var later := xs[1..];
      forall i | 0 <= i < |later| ensures later[i] == xs[i + 1] {}
      forall x | x in s - {xs[0]} ensures x in later {
        assert x in xs;
      }
      forall x | x in later ensures x in s - {xs[0]} {
        assert x in xs;
      }
      ListsSize(later, s - {xs[0]});
    }
  }
}
