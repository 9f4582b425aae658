/** Loops that stop at the first error, the shape `?` gives a Rust loop:
 *  `Run` threads a state through the elements, `Collect` gathers one value
 *  per element. The importers' loops are proved against these. */
module ResultFold {
  import opened Common

  /** The state after applying `step` to each element in turn, or the
   *  first error a step returns. With no elements it is the start state,
   *  so only a step can fail. */
  function Run<S, A, E>(xs: seq<A>, s: S, step: (S, A) -> Result<S, E>): (r: Result<S, E>)
    ensures |xs| == 0 ==> r == Ok(s)
    ensures r.Err? ==> |xs| > 0
    decreases |xs|
  {
    if |xs| == 0 then Ok(s)
    else
      match Run(xs[..|xs| - 1], s, step)
      case Err(e) => Err(e)
      case Ok(t) => step(t, xs[|xs| - 1])
  }

  /** A failed run fails with the error of the first step that failed,
   *  after a prefix that succeeded. */
  lemma {:induction false} RunFirstError<S, A, E>(xs: seq<A>, s: S, step: (S, A) -> Result<S, E>)
    requires Run(xs, s, step).Err?
    ensures exists k :: 0 <= k < |xs| && Run(xs[..k], s, step).Ok? && step(Run(xs[..k], s, step).value, xs[k]) == Run(xs, s, step)
  {
    var n := |xs| - 1;
    var init := xs[..n];
    if Run(init, s, step).Err? {
      RunFirstError(init, s, step);
      var k :| 0 <= k < |init| && Run(init[..k], s, step).Ok? && step(Run(init[..k], s, step).value, init[k]) == Run(init, s, step);
      assert init[..k] == xs[..k];
    } else {
      assert xs[..n] == init;
    }
  }

  /** One more element: the step applied to the state so far. */
  lemma RunNext<S, A, E>(xs: seq<A>, i: nat, s: S, step: (S, A) -> Result<S, E>)
    requires i < |xs| && Run(xs[..i], s, step).Ok?
    ensures Run(xs[..i + 1], s, step) == step(Run(xs[..i], s, step).value, xs[i])
  {
    assert xs[..i + 1][..i] == xs[..i];
  }

  /** Once a prefix has failed, the whole run fails the same way. */
  lemma {:induction false} RunStopped<S, A, E>(xs: seq<A>, k: nat, s: S, step: (S, A) -> Result<S, E>)
    requires k <= |xs| && Run(xs[..k], s, step).Err?
    ensures Run(xs, s, step) == Run(xs[..k], s, step)
  {
    if k < |xs| {
      var n := |xs| - 1;
      assert xs[..n][..k] == xs[..k];
      RunStopped(xs[..n], k, s, step);
    } else {
      assert xs[..k] == xs;
    }
  }

  /** A run that succeeds succeeds on every prefix. */
  lemma {:induction false} RunPrefixOk<S, A, E>(xs: seq<A>, k: nat, s: S, step: (S, A) -> Result<S, E>)
    requires k <= |xs| && Run(xs, s, step).Ok?
    ensures Run(xs[..k], s, step).Ok?
  {
    if Run(xs[..k], s, step).Err? {
      RunStopped(xs, k, s, step);
    }
  }

  /** One value per element, `f` given the element's index, or the first
   *  error; on success exactly one value per element. */
  function Collect<A, B, E>(xs: seq<A>, f: (nat, A) -> Result<B, E>): (r: Result<seq<B>, E>)
    ensures r.Ok? ==> |r.value| == |xs|
    decreases |xs|
  {
    if |xs| == 0 then Ok([])
    else
      match Collect(xs[..|xs| - 1], f)
      case Err(e) => Err(e)
      case Ok(ys) =>
        match f(|xs| - 1, xs[|xs| - 1])
        case Err(e) => Err(e)
        case Ok(y) => Ok(ys + [y])
  }

  /** One more element: its value appended, or its error. */
  lemma CollectNext<A, B, E>(xs: seq<A>, i: nat, f: (nat, A) -> Result<B, E>)
    requires i < |xs| && Collect(xs[..i], f).Ok?
    ensures f(i, xs[i]).Ok? ==> Collect(xs[..i + 1], f) == Ok(Collect(xs[..i], f).value + [f(i, xs[i]).value])
    ensures f(i, xs[i]).Err? ==> Collect(xs[..i + 1], f) == Err(f(i, xs[i]).error)
  {
    assert xs[..i + 1][..i] == xs[..i];
  }

  /** Once a prefix has failed, the whole collection fails the same way. */
  lemma {:induction false} CollectStopped<A, B, E>(xs: seq<A>, k: nat, f: (nat, A) -> Result<B, E>)
    requires k <= |xs| && Collect(xs[..k], f).Err?
    ensures Collect(xs, f) == Collect(xs[..k], f)
  {
    if k < |xs| {
      var n := |xs| - 1;
      assert xs[..n][..k] == xs[..k];
      CollectStopped(xs[..n], k, f);
    } else {
      assert xs[..k] == xs;
    }
  }

  /** What `Collect` means: it succeeds exactly when every element does,
   *  with each element's value in its place; otherwise it gives the error
   *  of the first element that fails. */
  lemma {:induction false} CollectCases<A, B, E>(xs: seq<A>, f: (nat, A) -> Result<B, E>)
    ensures Collect(xs, f).Ok? <==> forall i :: 0 <= i < |xs| ==> f(i, xs[i]).Ok?
    ensures Collect(xs, f).Ok? ==>
      |Collect(xs, f).value| == |xs| && forall i :: 0 <= i < |xs| ==> Collect(xs, f).value[i] == f(i, xs[i]).value
    ensures Collect(xs, f).Err? ==>
      exists i :: 0 <= i < |xs| && f(i, xs[i]) == Err(Collect(xs, f).error)
                  && forall j :: 0 <= j < i ==> f(j, xs[j]).Ok?
  {
    if |xs| > 0 {
      var n := |xs| - 1;
      var front := xs[..n];
      CollectCases(front, f);
      assert forall i :: 0 <= i < n ==> front[i] == xs[i];
      match Collect(front, f)
      case Err(_) =>
      case Ok(ys) =>
        if f(n, xs[n]).Ok? {
          var zs := ys + [f(n, xs[n]).value];
          assert forall i :: 0 <= i < n ==> zs[i] == ys[i];
        } else {
          assert f(n, xs[n]) == Err(Collect(xs, f).error);
        }
    }
  }
}
