/** Optional values and success-or-error values. `None` stands for a value
    pandas would hold as NaN; `Err` for a Python exception that escapes. */
module Results {

  datatype Option<T> = None | Some(value: T)

  datatype Result<T, E> = Ok(value: T) | Err(error: E)

  /** Running steps in order until one raises: the values of all of them,
      or the error of the first that fails. */
  function Collect<T, E>(outcomes: seq<Result<T, E>>): (r: Result<seq<T>, E>)
    ensures r.Ok? <==> forall k :: 0 <= k < |outcomes| ==> outcomes[k].Ok?
    ensures r.Ok? ==> |r.value| == |outcomes|
    ensures r.Ok? ==> forall k :: 0 <= k < |outcomes| ==> r.value[k] == outcomes[k].value
    decreases |outcomes|
  {
    if |outcomes| == 0 then Ok([])
    else
      var n := |outcomes| - 1;
      assert forall k :: 0 <= k < n ==> outcomes[..n][k] == outcomes[k];
      match Collect(outcomes[..n])
      case Err(e) => Err(e)
      case Ok(vs) =>
        match outcomes[n]
        case Err(e) => Err(e)
        case Ok(v) => Ok(vs + [v])
  }

  /** On failure, the error is that of the first step that fails. */
  lemma {:induction false} CollectFirstFailure<T, E>(outcomes: seq<Result<T, E>>, j: nat)
    requires j < |outcomes| && outcomes[j].Err?
    requires forall k :: 0 <= k < j ==> outcomes[k].Ok?
    ensures Collect(outcomes) == Err(outcomes[j].error)
    decreases |outcomes|
  {
    var n := |outcomes| - 1;
    assert forall k :: 0 <= k < n ==> outcomes[..n][k] == outcomes[k];
    if j < n {
      CollectFirstFailure(outcomes[..n], j);
    }
  }

  /** One more successful step appends its value. */
  lemma CollectStep<T, E>(outcomes: seq<Result<T, E>>, i: nat, vs: seq<T>)
    requires i < |outcomes| && outcomes[i].Ok?
    requires Collect(outcomes[..i]) == Ok(vs)
    ensures Collect(outcomes[..i + 1]) == Ok(vs + [outcomes[i].value])
  {
    assert outcomes[..i + 1][..i] == outcomes[..i];
  }

  /** A failure is the error of a failing step all of whose predecessors
      succeeded. */
  lemma {:induction false} CollectErrorIsFirst<T, E>(outcomes: seq<Result<T, E>>)
    requires Collect(outcomes).Err?
    ensures exists j :: 0 <= j < |outcomes| && outcomes[j] == Err(Collect(outcomes).error)
                        && forall k :: 0 <= k < j ==> outcomes[k].Ok?
    decreases |outcomes|
  {
    var n := |outcomes| - 1;
    assert forall k :: 0 <= k < n ==> outcomes[..n][k] == outcomes[k];
    if Collect(outcomes[..n]).Err? {
      CollectErrorIsFirst(outcomes[..n]);
      var j :| 0 <= j < n && outcomes[..n][j] == Err(Collect(outcomes[..n]).error)
               && forall k :: 0 <= k < j ==> outcomes[..n][k].Ok?;
      assert outcomes[j] == Err(Collect(outcomes).error);
    } else {
      assert outcomes[n] == Err(Collect(outcomes).error);
    }
  }

  /** A failing step after successful ones ends the run with its error. */
  lemma CollectStop<T, E>(outcomes: seq<Result<T, E>>, i: nat)
    requires i < |outcomes| && outcomes[i].Err?
    requires Collect(outcomes[..i]).Ok?
    ensures Collect(outcomes) == Err(outcomes[i].error)
  {
    assert forall k :: 0 <= k < i ==> outcomes[..i][k] == outcomes[k];
    CollectFirstFailure(outcomes, i);
  }

  /** The values of the steps that completed, in order, and the error
      that stopped the run, if one did. */
  datatype Partial<T, E> = Partial(done: seq<T>, raised: Option<E>)

  /** Running steps in order until one raises, keeping what the steps
      before it produced: step k < |done| succeeded with done[k], and a
      raised error is that of step |done|. */
  function RunUntilRaise<T, E>(outcomes: seq<Result<T, E>>): (r: Partial<T, E>)
    ensures |r.done| <= |outcomes|
    ensures forall k :: 0 <= k < |r.done| ==> outcomes[k] == Ok(r.done[k])
    ensures r.raised.None? ==> |r.done| == |outcomes|
    ensures r.raised.Some? ==> |r.done| < |outcomes| && outcomes[|r.done|] == Err(r.raised.value)
    decreases |outcomes|
  {
    if |outcomes| == 0 then Partial([], None)
    else
      var n := |outcomes| - 1;
      var before := RunUntilRaise(outcomes[..n]);
      if before.raised.Some? then before
      else
        match outcomes[n]
        case Err(e) => Partial(before.done, Some(e))
        case Ok(v) => Partial(before.done + [v], None)
  }

  /** Collect is RunUntilRaise without the completed values of a run that
      raised. */
  lemma CollectIsRunUntilRaise<T, E>(outcomes: seq<Result<T, E>>)
    ensures Collect(outcomes) == match RunUntilRaise(outcomes)
                                 case Partial(done, None) => Ok(done)
                                 case Partial(_, Some(e)) => Err(e)
  {
    var r := RunUntilRaise(outcomes);
    if r.raised.Some? {
      CollectFirstFailure(outcomes, |r.done|);
    } else {
      assert Collect(outcomes).value == r.done;
    }
  }

  /** One more successful step after successful ones appends its value. */
  lemma RunUntilRaiseStep<T, E>(outcomes: seq<Result<T, E>>, i: nat, vs: seq<T>)
    requires i < |outcomes| && outcomes[i].Ok?
    requires RunUntilRaise(outcomes[..i]) == Partial(vs, None)
    ensures RunUntilRaise(outcomes[..i + 1]) == Partial(vs + [outcomes[i].value], None)
  {
    assert outcomes[..i + 1][..i] == outcomes[..i];
  }

  /** A failing step after successful ones ends the run: the values so far
      and its error. */
  lemma RunUntilRaiseStop<T, E>(outcomes: seq<Result<T, E>>, i: nat, vs: seq<T>)
    requires i < |outcomes| && outcomes[i].Err?
    requires RunUntilRaise(outcomes[..i]) == Partial(vs, None)
    ensures RunUntilRaise(outcomes) == Partial(vs, Some(outcomes[i].error))
  {
    assert forall k :: 0 <= k < i ==> outcomes[..i][k] == outcomes[k];
    PartialUnique(outcomes, RunUntilRaise(outcomes), Partial(vs, Some(outcomes[i].error)));
  }

  /** What the contract of RunUntilRaise says fixes its result. */
  ghost predicate IsRunUntilRaise<T, E>(outcomes: seq<Result<T, E>>, r: Partial<T, E>)
  {
    && |r.done| <= |outcomes|
    && (forall k :: 0 <= k < |r.done| ==> outcomes[k] == Ok(r.done[k]))
    && (r.raised.None? ==> |r.done| == |outcomes|)
    && (r.raised.Some? ==> |r.done| < |outcomes| && outcomes[|r.done|] == Err(r.raised.value))
  }

  lemma PartialUnique<T, E>(outcomes: seq<Result<T, E>>, r1: Partial<T, E>, r2: Partial<T, E>)
    requires IsRunUntilRaise(outcomes, r1) && IsRunUntilRaise(outcomes, r2)
    ensures r1 == r2
  {
    assert forall k :: 0 <= k < |r1.done| ==> outcomes[k].Ok?;
    assert forall k :: 0 <= k < |r2.done| ==> outcomes[k].Ok?;
    assert |r1.done| == |r2.done|;
    assert r1.done == r2.done;
  }
}
