/**
 * `src/components/common/AccessibilityProvider.tsx`: the high-contrast flag and the root font size,
 * changed by the context functions and by the Alt+c, Alt++ and Alt+- shortcuts. Writing them to the
 * document is not modelled.
 */
module Accessibility {

  const INITIAL_FONT_SIZE := 16
  const MIN_FONT_SIZE := 12
  const MAX_FONT_SIZE := 24
  const FONT_STEP := 2

  /** `Math.min(prev + 2, 24)`. */
  function Increase(size: int): (r: int)
    ensures r <= MAX_FONT_SIZE
    ensures r == size + FONT_STEP || r == MAX_FONT_SIZE
    ensures size + FONT_STEP <= MAX_FONT_SIZE ==> r == size + FONT_STEP
    ensures size <= MAX_FONT_SIZE ==> size <= r
  {
    if size + FONT_STEP < MAX_FONT_SIZE then size + FONT_STEP else MAX_FONT_SIZE
  }

  /** `Math.max(prev - 2, 12)`. */
  function Decrease(size: int): (r: int)
    ensures MIN_FONT_SIZE <= r
    ensures r == size - FONT_STEP || r == MIN_FONT_SIZE
    ensures MIN_FONT_SIZE <= size - FONT_STEP ==> r == size - FONT_STEP
    ensures MIN_FONT_SIZE <= size ==> r <= size
  {
    if size - FONT_STEP > MIN_FONT_SIZE then size - FONT_STEP else MIN_FONT_SIZE
  }

  /** The sizes the provider can show: even, between 12 and 24. */
  predicate GoodSize(size: int)
  {
    MIN_FONT_SIZE <= size <= MAX_FONT_SIZE && size % 2 == 0
  }

  /** Both steps keep a good size good; at the bounds they do nothing. */
  lemma StepsKeepGoodSize(size: int)
    requires GoodSize(size)
    ensures GoodSize(Increase(size)) && GoodSize(Decrease(size))
    ensures size == MAX_FONT_SIZE <==> Increase(size) == size
    ensures size == MIN_FONT_SIZE <==> Decrease(size) == size
  {
  }

  /** Each step undoes the other away from the bound it stops at. */
  lemma StepsUndoEachOther(size: int)
    requires GoodSize(size)
    ensures size < MAX_FONT_SIZE ==> Decrease(Increase(size)) == size
    ensures size > MIN_FONT_SIZE ==> Increase(Decrease(size)) == size
  {
  }

  /** A user action on the font size. */
  datatype FontStep = Bigger | Smaller

  /** The size after a sequence of steps. */
  function AfterSteps(size: int, steps: seq<FontStep>): int
  {
    if steps == [] then size
    else
      var prev := AfterSteps(size, steps[..|steps| - 1]);
      if steps[|steps| - 1] == Bigger then Increase(prev) else Decrease(prev)
  }

  /** From the initial 16, any sequence of steps leaves an even size between 12 and 24. */
  lemma {:induction false} AnyStepsKeepGoodSize(steps: seq<FontStep>)
    ensures GoodSize(AfterSteps(INITIAL_FONT_SIZE, steps))
  {
    if steps != [] {
      AnyStepsKeepGoodSize(steps[..|steps| - 1]);
      StepsKeepGoodSize(AfterSteps(INITIAL_FONT_SIZE, steps[..|steps| - 1]));
    }
  }

  /** The provider's two state fields. */
  class AccessibilitySettings {
    var highContrast: bool
    var fontSize: int

    predicate Valid()
      reads this
    {
      GoodSize(fontSize)
    }

    constructor ()
      ensures Valid()
      ensures !highContrast && fontSize == INITIAL_FONT_SIZE
    {
      highContrast := false;
      fontSize := INITIAL_FONT_SIZE;
    }

    /** `toggleHighContrast`. */
    method ToggleHighContrast()
      requires Valid()
      modifies this
      ensures Valid()
      ensures highContrast == !old(highContrast) && fontSize == old(fontSize)
    {
      highContrast := !highContrast;
    }

    /** `increaseFontSize`. */
    method IncreaseFontSize()
      requires Valid()
      modifies this
      ensures Valid()
      ensures fontSize == Increase(old(fontSize)) && highContrast == old(highContrast)
    {
      StepsKeepGoodSize(fontSize);
      fontSize := Increase(fontSize);
    }

    /** `decreaseFontSize`. */
    method DecreaseFontSize()
      requires Valid()
      modifies this
      ensures Valid()
      ensures fontSize == Decrease(old(fontSize)) && highContrast == old(highContrast)
    {
      StepsKeepGoodSize(fontSize);
      fontSize := Decrease(fontSize);
    }

    /** `handleKeyPress`: with Alt held, 'c', '+' and '-' apply the same transitions as the context functions. */
    method HandleKeyPress(altKey: bool, key: string)
      requires Valid()
      modifies this
      ensures Valid()
      ensures highContrast == (if altKey && key == "c" then !old(highContrast) else old(highContrast))
      ensures fontSize ==
        if altKey && key == "+" then Increase(old(fontSize))
        else if altKey && key == "-" then Decrease(old(fontSize))
        else old(fontSize)
    {
      if altKey && key == "c" {
        ToggleHighContrast();
      }
      if altKey && key == "+" {
        IncreaseFontSize();
      }
      if altKey && key == "-" {
        DecreaseFontSize();
      }
    }
  }

  /** Toggling twice restores the flag. */
  method ToggleTwice(settings: AccessibilitySettings)
    requires settings.Valid()
    modifies settings
    ensures settings.Valid()
    ensures settings.highContrast == old(settings.highContrast) && settings.fontSize == old(settings.fontSize)
  {
    settings.ToggleHighContrast();
    settings.ToggleHighContrast();
  }
}
