/** The party-size stepper: `setPersonCount(n)` shows `Math.max(1, n)`. */
module PartySize {

  /** The count shown: the requested one, raised to one when it is below. */
  function SetPersonCount(requested: int): (count: int)
    ensures count >= 1 && count >= requested
    ensures count == requested || count == 1
  {
    if requested < 1 then 1 else requested
  }

  /** The count after k presses of the decrement button, starting from `count`. */
  function Decrements(count: int, k: nat): int {
    if k == 0 then count else SetPersonCount(Decrements(count, k - 1) - 1)
  }

  /**
   * However often the decrement button is pressed, the count stays at one or
   * above; it counts down one per press until it reaches one, and stays there.
   */
  lemma {:induction false} DecrementsStayAtLeastOne(count: int, k: nat)
    requires count >= 1
    ensures Decrements(count, k) >= 1
    ensures Decrements(count, k) == if count - k >= 1 then count - k else 1
  {
    if k > 0 {
      DecrementsStayAtLeastOne(count, k - 1);
    }
  }
}
