/** Loops that run steps i, i+1, ..., n-1 and thread a stream offset from
    each step into the next, as CreateMeshes threads its vertex offset. */
module Chains {
  import opened Wrappers

  /** The items of steps i..n-1, step i starting at `pos` and every later
      step at the offset the previous one returned; the first failure stops
      the run. */
  function Chain<T>(n: nat, i: nat, pos: nat, step: (nat, nat) -> Result<(T, nat)>): (r: Result<seq<T>>)
    ensures r.Ok? && i <= n ==> |r.value| == n - i
    decreases n - i
  {
    if i >= n then Ok([])
    else
      var x :- step(i, pos);
      var rest :- Chain(n, i + 1, x.1, step);
      Ok([x.0] + rest)
  }

  /** The offsets steps i..k-1 move on by in turn. */
  function Span(w: nat -> nat, i: nat, k: nat): nat
    decreases k - i
  {
    if i >= k then 0 else w(i) + Span(w, i + 1, k)
  }

  /** Every step that succeeds moves the position on by the width of its
      index. */
  ghost predicate Advances<T>(step: (nat, nat) -> Result<(T, nat)>, w: nat -> nat)
  {
    forall j: nat, q: nat :: step(j, q).Ok? ==> step(j, q).value.1 == q + w(j)
  }

  /** Running step i is running it and then the rest. */
  lemma ChainStep<T>(n: nat, i: nat, pos: nat, step: (nat, nat) -> Result<(T, nat)>, x: T, next: nat)
    requires i < n && step(i, pos) == Ok((x, next))
    ensures Chain(n, i, pos, step) == Prepend([x], Chain(n, i + 1, next, step))
  {
  }

  /** When step j always moves the offset on by w(j), item k of a successful
      run from i is what step k yields at the offset steps i..k-1 end at. */
  lemma {:induction false} ChainAt<T>(n: nat, i: nat, pos: nat, step: (nat, nat) -> Result<(T, nat)>, w: nat -> nat, k: nat)
    requires Advances(step, w)
    requires i <= k < n
    requires Chain(n, i, pos, step).Ok?
    ensures step(k, pos + Span(w, i, k)).Ok?
    ensures Chain(n, i, pos, step).value[k - i] == step(k, pos + Span(w, i, k)).value.0
    decreases k - i
  {
    var x := step(i, pos).value;
    if k > i {
      ChainAt(n, i + 1, x.1, step, w, k);
      assert pos + Span(w, i, k) == x.1 + Span(w, i + 1, k);
    }
  }

  /** ChainAt for a run that starts at step 0 and offset 0: item k is what
      step k yields at the widths of the steps before it. */
  lemma ChainFromStart<T>(n: nat, step: (nat, nat) -> Result<(T, nat)>, w: nat -> nat, k: nat)
    requires Advances(step, w)
    requires k < n && Chain(n, 0, 0, step).Ok?
    ensures step(k, Span(w, 0, k)).Ok?
    ensures Chain(n, 0, 0, step).value[k] == step(k, Span(w, 0, k)).value.0
  {
    ChainAt(n, 0, 0, step, w, k);
  }
}
