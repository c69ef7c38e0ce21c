/**
 Inductions over histories. What holds of each state of a run, or of each step, is
 given as a sequence of truth values, so that an induction sees nothing of the states.
 */
module Histories {
  import opened Wrappers

  /** What each step keeps, a run keeps. */
  lemma {:induction false} Lasts(holds: seq<bool>, i: nat, j: nat)
    requires i <= j < |holds| && holds[i]
    requires forall k :: i <= k < j ==> holds[k] ==> holds[k + 1]
    ensures holds[j]
    decreases j
  {
    if i < j {
      Lasts(holds, i, j - 1);
    }
  }

  /** What a state keeps while a clock that never runs backwards is short of `until`. */
  lemma {:induction false} LastsUntil(clock: seq<nat>, holds: seq<bool>, i: nat, j: nat, until: nat)
    requires i <= j < |clock| == |holds| && holds[i] && clock[j] < until
    requires forall k :: i <= k < j ==> clock[k] <= clock[k + 1] && (holds[k] && clock[k + 1] < until ==> holds[k + 1])
    ensures holds[j]
    decreases j
  {
    if i < j {
      LastsUntil(clock, holds, i, j - 1, until);
    }
  }

  /** What does not hold at first and holds later began to hold at some step. */
  lemma {:induction false} Begins(holds: seq<bool>, n: nat) returns (k: nat)
    requires n < |holds| && !holds[0] && holds[n]
    ensures k < n && !holds[k] && holds[k + 1]
  {
    if holds[n - 1] {
      k := Begins(holds, n - 1);
    } else {
      k := n - 1;
    }
  }

  /** What is there until some step takes it away, for good. */
  lemma {:induction false} ThereUntilTaken(there: seq<bool>, takes: seq<bool>, i: nat, j: nat)
    requires i <= j <= |takes| < |there| && there[i]
    requires forall k :: i <= k < j ==> (there[k + 1] <==> there[k] && !takes[k])
    ensures there[j] <==> forall k :: i <= k < j ==> !takes[k]
    decreases j
  {
    if i < j {
      ThereUntilTaken(there, takes, i, j - 1);
    }
  }

  /** The last of some steps, of which one is known. */
  lemma {:induction false} LastOf(marks: seq<bool>, i: nat, j: nat) returns (k: nat)
    requires i < j <= |marks| && marks[i]
    ensures i <= k < j && marks[k] && forall n :: k < n < j ==> !marks[n]
    decreases j
  {
    if marks[j - 1] {
      k := j - 1;
    } else {
      k := LastOf(marks, i, j - 1);
    }
  }

  /** A variable that starts out empty holds what it was last given. */
  lemma {:induction false} LastGiven(values: seq<Option<nat>>, gives: seq<Option<nat>>, n: nat) returns (k: nat)
    requires n <= |gives| < |values| && values[0].None? && values[n].Some?
    requires forall i :: 0 <= i < n ==> values[i + 1] == if gives[i].Some? then gives[i] else values[i]
    ensures k < n && gives[k] == values[n] && forall i :: k < i < n ==> gives[i].None?
  {
    if gives[n - 1].Some? {
      k := n - 1;
    } else {
      k := LastGiven(values, gives, n - 1);
    }
  }

  /**
   A question that is asked once: `unasked` and `pending` tell for each state that it
   has not been asked, and that it has no answer yet, `asks` and `answers` for each
   step that it asks it, and that it answers it.
   */
  lemma {:induction false} Unanswered(unasked: seq<bool>, pending: seq<bool>, asks: seq<bool>, answers: seq<bool>,
          n: nat)
    requires n <= |asks| == |answers| < |unasked| == |pending| && unasked[0] && !pending[0]
    requires forall k :: 0 <= k < n ==> (unasked[k + 1] <==> unasked[k] && !asks[k])
    requires forall k :: 0 <= k < n ==> (pending[k + 1] <==> asks[k] || (pending[k] && !answers[k]))
    requires forall k :: 0 <= k < n ==> (asks[k] ==> unasked[k]) && (answers[k] ==> pending[k])
    ensures unasked[n] <==> forall i :: 0 <= i < n ==> !asks[i]
    ensures unasked[n] ==> !pending[n] && forall i :: 0 <= i < n ==> !answers[i]
    ensures pending[n] <==> (exists i :: 0 <= i < n && asks[i]) && forall i :: 0 <= i < n ==> !answers[i]
  {
    if n > 0 {
      Unanswered(unasked, pending, asks, answers, n - 1);
    }
  }

  /** What the first of some steps finds there stays as long as nothing removes it, and nothing puts it there later. */
  lemma {:induction false} FoundFirst(after: seq<bool>, there: seq<bool>, firsts: seq<bool>, removes: seq<bool>, n: nat)
    requires n <= |firsts| == |removes| < |after| == |there| && !after[0]
    requires forall k :: 0 <= k < n ==> (after[k + 1] <==> after[k] || firsts[k]) && (firsts[k] ==> !after[k])
    requires forall k :: 0 <= k < n && firsts[k] ==> (there[k + 1] <==> there[k])
    requires forall k :: 0 <= k < n && after[k] ==> (there[k + 1] <==> there[k] && !removes[k])
    ensures !after[n] ==> forall i :: 0 <= i < n ==> !firsts[i]
    ensures after[n] ==>
      (there[n] <==> exists i :: 0 <= i < n && firsts[i] && there[i] && forall k :: i < k < n ==> !removes[k])
  {
    if n > 0 {
      FoundFirst(after, there, firsts, removes, n - 1);
    }
  }
}
