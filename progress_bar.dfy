/**
 * The decorative generation progress bar: an interval that adds 2 to a
 * counter on every tick and clears itself once the counter has reached 100.
 */
module ProgressBar {

  const Full: int := 100
  const Increment: int := 2

  /**
   * The updater passed to `setProgress` on every tick: it never lowers a
   * counter at or below 100, keeps an even counter in [0, 100] even and in
   * range, and yields 100 exactly from 98 on.
   */
  function Advance(prev: int): (next: int)
    ensures prev <= Full ==> prev <= next
    ensures 0 <= prev <= Full && prev % 2 == 0 ==> 0 <= next <= Full && next % 2 == 0
    ensures next == Full <==> prev >= Full || prev == Full - Increment
  {
    if prev >= Full then Full else prev + Increment
  }

  /** The counter after `n` ticks from its starting value 0. */
  function AfterTicks(n: nat): int
  {
    if n == 0 then 0 else Advance(AfterTicks(n - 1))
  }

  /** Closed form: twice the number of ticks, capped at 100. */
  lemma {:induction false} AfterTicksClosedForm(n: nat)
    ensures AfterTicks(n) == if 2 * n <= Full then 2 * n else Full
  {
    if n > 0 {
      AfterTicksClosedForm(n - 1);
    }
  }

  /** From 0 the counter stays even, within [0, 100], and never goes down. */
  lemma AfterTicksBounds(n: nat)
    ensures 0 <= AfterTicks(n) <= Full && AfterTicks(n) % 2 == 0
    ensures AfterTicks(n) <= AfterTicks(n + 1)
  {
    AfterTicksClosedForm(n);
    AfterTicksClosedForm(n + 1);
  }

  /** The counter reaches 100 after exactly 50 ticks and stays there. */
  lemma FullAfterFiftyTicks(n: nat)
    ensures AfterTicks(n) == Full <==> n >= 50
  {
    AfterTicksClosedForm(n);
  }

  class Bar {
    var progress: int
    /** Whether the interval is still installed. */
    var running: bool

    ghost predicate Valid()
      reads this
    {
      0 <= progress <= Full && progress % 2 == 0 && (!running ==> progress == Full)
    }

    /** Mounting: the counter starts at 0 and the interval is installed. */
    constructor ()
      ensures Valid() && progress == 0 && running
    {
      progress := 0;
      running := true;
    }

    /** One interval tick: clear the interval once 100 is reached, else step by 2. */
    method Tick()
      requires Valid() && running
      modifies this
      ensures Valid()
      ensures progress == Advance(old(progress))
      ensures running <==> old(progress) < Full
    {
      if progress >= Full {
        running := false;
        progress := Full;
      } else {
        progress := progress + Increment;
      }
    }

    /** Lets the interval fire until it clears itself; returns how many ticks that took. */
    method RunToCompletion() returns (ticks: nat)
      requires Valid() && running && progress == 0
      modifies this
      ensures Valid() && !running && progress == Full
      ensures ticks == 51
    {
      ticks := 0;
      while running
        invariant Valid()
        invariant ticks <= 51
        invariant progress == AfterTicks(ticks)
        invariant running <==> ticks <= 50
        decreases 51 - ticks
      {
        AfterTicksClosedForm(ticks);
        Tick();
        ticks := ticks + 1;
      }
    }
  }
}
