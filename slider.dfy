/**
 * The hero slider: an index into the slides that a 5-second timer advances,
 * wrapping from the last slide to the first. The timer itself is not modelled,
 * only the index update of one tick.
 */
module Slider {

  /** `slides.findIndex(s => s.classList.contains("active"))`: the first active slide, or -1. */
  function FirstActive(active: seq<bool>): (r: int)
    ensures -1 <= r < |active|
    ensures r == -1 <==> forall j :: 0 <= j < |active| ==> !active[j]
    ensures r >= 0 ==> active[r] && forall j :: 0 <= j < r ==> !active[j]
  {
    if active == [] then -1
    else if active[0] then 0
    else
      var k := FirstActive(active[1..]);
      if k == -1 then -1 else k + 1
  }

  /** The index a slider built from the markup starts at: the first active slide, or 0 when none is. */
  function InitialIndex(active: seq<bool>): (idx: nat)
    ensures active != [] ==> idx < |active|
    ensures (exists j :: 0 <= j < |active| && active[j]) ==> active[idx] && forall j :: 0 <= j < idx ==> !active[j]
    ensures (forall j :: 0 <= j < |active| ==> !active[j]) ==> idx == 0
  {
    var k := FirstActive(active);
    if k < 0 then 0 else k
  }

  /** One tick: `(idx + 1) % count`. */
  function Next(idx: nat, count: nat): (r: nat)
    requires idx < count
    ensures r < count
    ensures r == if idx + 1 == count then 0 else idx + 1
  {
    (idx + 1) % count
  }

  /** The index after k ticks. */
  function Advance(idx: nat, count: nat, k: nat): (r: nat)
    requires idx < count
    ensures r < count
  {
    if k == 0 then idx else Next(Advance(idx, count, k - 1), count)
  }

  /** Euclidean division has a unique quotient and remainder. */
  lemma DivModUnique(a: int, count: int, q: int, r: int)
    requires count > 0 && 0 <= r < count && a == q * count + r
    ensures a % count == r
  {
    var q', r' := a / count, a % count;
    var m := q - q';
    assert m * count == r' - r;
    assert m >= 1 ==> m * count >= count;
    assert m <= -1 ==> m * count <= -count;
  }

  /** Adding one to a number moves its remainder on by one, wrapping at `count`. */
  lemma ModNext(a: int, count: nat)
    requires count > 0
    ensures (a + 1) % count == Next(a % count, count)
  {
    var q, r := a / count, a % count;
    if r + 1 == count {
      DivModUnique(a + 1, count, q + 1, 0);
    } else {
      DivModUnique(a + 1, count, q, r + 1);
    }
  }

  /** After k ticks the index is the start moved on by k, modulo the number of slides. */
  lemma {:induction false} AdvanceIsModular(idx: nat, count: nat, k: nat)
    requires idx < count
    ensures Advance(idx, count, k) == (idx + k) % count
  {
    if k == 0 {
      DivModUnique(idx, count, 0, idx);
    } else {
      AdvanceIsModular(idx, count, k - 1);
      ModNext(idx + k - 1, count);
    }
  }

  /** A full round of `count` ticks brings the slider back to the slide it started on. */
  lemma FullRound(idx: nat, count: nat)
    requires idx < count
    ensures Advance(idx, count, count) == idx
  {
    AdvanceIsModular(idx, count, count);
    DivModUnique(idx + count, count, 1, idx);
  }

  class HeroSlider {
    /** The number of slides. */
    const count: nat
    /** The slide shown. */
    var idx: nat

    ghost predicate Valid()
      reads this
    {
      idx < count || (count == 0 && idx == 0)
    }

    /** The slider of app.js: it starts on the slide the markup marks active, or on the first. */
    constructor FromMarkup(active: seq<bool>)
      ensures Valid()
      ensures count == |active| && idx == InitialIndex(active)
    {
      count := |active|;
      idx := InitialIndex(active);
    }

    /** The slider of script.js: it starts at index 0 whatever the markup says. */
    constructor AtStart(slides: nat)
      ensures Valid()
      ensures count == slides && idx == 0
    {
      count := slides;
      idx := 0;
    }

    /** One timer tick. The timer is only started when there is at least one slide. */
    method Tick()
      requires Valid() && count > 0
      modifies this
      ensures Valid()
      ensures idx == Next(old(idx), count)
    {
      idx := (idx + 1) % count;
    }
  }
}
