/**
 * `src/hooks/useLoading.ts`: the loading flag and the progress value. The timers that fire the steps
 * are not modelled; each handler is a method the timers would call.
 */
module Loading {

  /** The step `handleProgress` applies to the previous value. */
  function Step(prev: int): (r: int)
    ensures prev < 90 ==> r == prev + 10
    ensures prev >= 90 ==> r == prev
    ensures prev <= r
  {
    if prev >= 90 then prev else prev + 10
  }

  /** The progress after `k` steps. */
  function Steps(prev: int, k: nat): int
  {
    if k == 0 then prev else Step(Steps(prev, k - 1))
  }

  function Min(a: int, b: int): int { if a <= b then a else b }

  /** From 0, `k` steps give min(10k, 90): progress never passes 90 before completion. */
  lemma {:induction false} StepsFromZero(k: nat)
    ensures Steps(0, k) == Min(10 * k, 90)
  {
    if k > 0 {
      StepsFromZero(k - 1);
    }
  }

  /** The hook's two state fields. */
  class LoadingState {
    var isLoading: bool
    var loadingProgress: int

    /** Progress moves in tens from 0 to 100, and stays at 90 or below while loading. */
    predicate Valid()
      reads this
    {
      0 <= loadingProgress <= 100 && loadingProgress % 10 == 0 && (isLoading ==> loadingProgress <= 90)
    }

    constructor ()
      ensures Valid()
      ensures !isLoading && loadingProgress == 0
    {
      isLoading := false;
      loadingProgress := 0;
    }

    /** `handleStart`. */
    method Start()
      modifies this
      ensures Valid()
      ensures isLoading && loadingProgress == 0
    {
      isLoading := true;
      loadingProgress := 0;
    }

    /** `handleProgress`. */
    method Progress()
      requires Valid()
      modifies this
      ensures Valid()
      ensures loadingProgress == Step(old(loadingProgress)) && isLoading == old(isLoading)
      ensures old(loadingProgress) <= loadingProgress
    {
      loadingProgress := Step(loadingProgress);
    }

    /** `handleComplete`. */
    method Complete()
      modifies this
      ensures Valid()
      ensures !isLoading && loadingProgress == 100
    {
      loadingProgress := 100;
      isLoading := false;
    }
  }
}
