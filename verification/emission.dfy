/** The shape shared by the parser's loops: each item is skipped, emits one operation, or ends the loop with an error. */
module Emission {
  import opened Rosetta

  datatype Step<+O, +E> = Skip | Emit(op: O) | Fail(error: E)

  datatype Emission<+O, +E> = Emission(ops: seq<O>, error: Option<E>)

  function EmitAll<T, O, E>(step: (T, nat) -> Step<O, E>, items: seq<T>): Emission<O, E> {
    if items == [] then Emission([], None)
    else
      var n := |items| - 1;
      var before := EmitAll(step, items[..n]);
      if before.error.Some? then before
      else
        match step(items[n], n)
        case Skip => before
        case Emit(op) => Emission(before.ops + [op], None)
        case Fail(error) => Emission(before.ops, Some(error))
  }

  lemma NoTurn<T, O, E>(step: (T, nat) -> Step<O, E>)
    ensures EmitAll(step, []) == Emission([], None)
  {
  }

  /** One more turn of the loop. */
  lemma Turn<T, O, E>(step: (T, nat) -> Step<O, E>, items: seq<T>, i: nat)
    requires i < |items| && EmitAll(step, items[..i]).error.None?
    ensures var before, after := EmitAll(step, items[..i]).ops, EmitAll(step, items[..i + 1]);
      match step(items[i], i)
      case Skip => after == Emission(before, None)
      case Emit(op) => after == Emission(before + [op], None)
      case Fail(error) => after == Emission(before, Some(error)) && EmitAll(step, items) == after
  {
    assert items[..i + 1][..i] == items[..i];
    if step(items[i], i).Fail? {
      FailureStays(step, items, i + 1);
    }
  }

  /** Once the loop has failed, later items change nothing. */
  lemma {:induction false} FailureStays<T, O, E>(step: (T, nat) -> Step<O, E>, items: seq<T>, k: nat)
    requires k <= |items| && EmitAll(step, items[..k]).error.Some?
    ensures EmitAll(step, items) == EmitAll(step, items[..k])
    decreases |items|
  {
    if k == |items| {
      assert items[..k] == items;
    } else {
      var n := |items| - 1;
      assert items[..n][..k] == items[..k];
      FailureStays(step, items[..n], k);
    }
  }

  /** The loop fails exactly when some item fails. */
  lemma {:induction false} FailsIff<T, O, E>(step: (T, nat) -> Step<O, E>, items: seq<T>)
    ensures EmitAll(step, items).error.Some? <==> exists i :: 0 <= i < |items| && step(items[i], i).Fail?
  {
    if items != [] {
      var n := |items| - 1;
      FailsIff(step, items[..n]);
      if i: nat :| i < n && step(items[..n][i], i).Fail? {
        assert step(items[i], i).Fail?;
      }
      if i: nat :| i < n && step(items[i], i).Fail? {
        assert step(items[..n][i], i).Fail?;
      }
    }
  }

  /** Item i fails with this error, and no item before it fails. */
  predicate FailsFirst<T, O, E(==)>(step: (T, nat) -> Step<O, E>, items: seq<T>, i: nat, e: E)
    requires i < |items|
  {
    step(items[i], i).Fail? && step(items[i], i).error == e && forall j :: 0 <= j < i ==> !step(items[j], j).Fail?
  }

  /** The first item that fails gives the error of the loop. */
  lemma FirstFailureGiven<T, O, E>(step: (T, nat) -> Step<O, E>, items: seq<T>, i: nat, e: E)
    requires i < |items| && FailsFirst(step, items, i, e)
    ensures EmitAll(step, items).error == Some(e)
  {
    FailsIff(step, items[..i]);
    Turn(step, items, i);
  }

  /** An error of the loop is that of the first item that fails. */
  lemma {:induction false} ErrorHasFirst<T, O, E>(step: (T, nat) -> Step<O, E>, items: seq<T>)
    requires EmitAll(step, items).error.Some?
    ensures exists i :: 0 <= i < |items| && FailsFirst(step, items, i, EmitAll(step, items).error.value)
  {
    var n := |items| - 1;
    var e := EmitAll(step, items).error.value;
    if EmitAll(step, items[..n]).error.Some? {
      ErrorHasFirst(step, items[..n]);
      var i: nat :| i < n && FailsFirst(step, items[..n], i, e);
      assert forall j :: 0 <= j <= i ==> items[..n][j] == items[j];
      assert FailsFirst(step, items, i, e);
    } else {
      FailsIff(step, items[..n]);
      assert forall j :: 0 <= j < n ==> items[..n][j] == items[j];
      assert FailsFirst(step, items, n, e);
    }
  }

  /** How many of the items emit. */
  function Emitting<T, O, E>(step: (T, nat) -> Step<O, E>, items: seq<T>): nat {
    if items == [] then 0
    else
      var n := |items| - 1;
      Emitting(step, items[..n]) + if step(items[n], n).Emit? then 1 else 0
  }

  /** Without a failure the operations are those of the emitting items, in order: the k-th comes from the k-th of them. */
  lemma {:induction false} EmittedInOrder<T, O, E>(step: (T, nat) -> Step<O, E>, items: seq<T>)
    requires EmitAll(step, items).error.None?
    ensures var ops := EmitAll(step, items).ops;
      && |ops| == Emitting(step, items)
      && forall i :: 0 <= i < |items| ==>
           !step(items[i], i).Fail? &&
           (step(items[i], i).Emit? ==>
              Emitting(step, items[..i]) < |ops| && ops[Emitting(step, items[..i])] == step(items[i], i).op)
  {
    if items != [] {
      var n := |items| - 1;
      EmittedInOrder(step, items[..n]);
      forall i | 0 <= i < n
        ensures !step(items[i], i).Fail?
        ensures step(items[i], i).Emit? ==>
          Emitting(step, items[..i]) < Emitting(step, items[..n]) &&
          EmitAll(step, items[..n]).ops[Emitting(step, items[..i])] == step(items[i], i).op
      {
        assert items[..n][i] == items[i] && items[..n][..i] == items[..i];
      }
    }
  }

  /** When every item emits, operation i comes from item i. */
  lemma {:induction false} AllEmit<T, O, E>(step: (T, nat) -> Step<O, E>, items: seq<T>)
    requires forall i :: 0 <= i < |items| ==> step(items[i], i).Emit?
    ensures var e := EmitAll(step, items);
      && e.error.None? && |e.ops| == |items|
      && forall i :: 0 <= i < |items| ==> e.ops[i] == step(items[i], i).op
  {
    if items != [] {
      var n := |items| - 1;
      forall i | 0 <= i < n ensures step(items[..n][i], i).Emit? {
        assert items[..n][i] == items[i];
      }
      AllEmit(step, items[..n]);
    }
  }

  /** The count is full exactly when every item emits. */
  lemma {:induction false} EmittingBound<T, O, E>(step: (T, nat) -> Step<O, E>, items: seq<T>)
    ensures Emitting(step, items) <= |items|
    ensures Emitting(step, items) == |items| <==> forall i :: 0 <= i < |items| ==> step(items[i], i).Emit?
  {
    if items != [] {
      var n := |items| - 1;
      EmittingBound(step, items[..n]);
      assert forall i :: 0 <= i < n ==> items[..n][i] == items[i];
    }
  }
}
