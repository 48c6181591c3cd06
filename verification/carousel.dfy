/**
 * The `Carousel` component's index: `currentIndex` starts at 0 and the next / previous
 * buttons replace it by `(i + 1) % length` and `(i - 1 + length) % length`, with
 * JavaScript's remainder. An empty list makes the remainder NaN.
 */
module Carousel {
  import opened Wrappers

  /** The value of `currentIndex`: an integer, or NaN once a remainder by zero happened. */
  datatype Index = At(i: int) | NotANumber

  const Start: Index := At(0)

  /** JavaScript's `a % n` for `n > 0`: truncating, so the sign follows `a`. */
  function JsRemainder(a: int, n: nat): (r: int)
    requires n > 0
    ensures a >= 0 ==> 0 <= r < n
    ensures a >= 0 ==> r == a % n
  {
    if a >= 0 then a % n else -((-a) % n)
  }

  /** `handleNext`'s updater for a list of `n` molecules. */
  function Next(idx: Index, n: nat): (r: Index)
    ensures n == 0 || idx.NotANumber? <==> r.NotANumber?
    ensures InBounds(idx, n) ==> InBounds(r, n)
  {
    match idx
    case NotANumber => NotANumber
    case At(i) => if n == 0 then NotANumber else At(JsRemainder(i + 1, n))
  }

  /** `handlePrev`'s updater for a list of `n` molecules. */
  function Prev(idx: Index, n: nat): (r: Index)
    ensures n == 0 || idx.NotANumber? <==> r.NotANumber?
    ensures InBounds(idx, n) ==> InBounds(r, n)
  {
    match idx
    case NotANumber => NotANumber
    case At(i) => if n == 0 then NotANumber else At(JsRemainder(i - 1 + n, n))
  }

  /** A valid index for a list of `n` molecules. */
  predicate InBounds(idx: Index, n: nat)
  {
    idx.At? && 0 <= idx.i < n
  }

  /** From a valid index, next moves one step right and wraps from the last slot to 0. */
  lemma NextStep(i: int, n: nat)
    requires 0 <= i < n
    ensures Next(At(i), n) == At(if i == n - 1 then 0 else i + 1)
    ensures InBounds(Next(At(i), n), n)
  {
  }

  /** From a valid index, previous moves one step left and wraps from 0 to the last slot. */
  lemma PrevStep(i: int, n: nat)
    requires 0 <= i < n
    ensures Prev(At(i), n) == At(if i == 0 then n - 1 else i - 1)
    ensures InBounds(Prev(At(i), n), n)
  {
    if i == 0 {
      assert JsRemainder(n - 1, n) == n - 1;
    } else {
      assert i - 1 + n == (i - 1) + n;
      assert JsRemainder(i - 1 + n, n) == i - 1;
    }
  }

  /** Next and previous undo each other on every valid index. */
  lemma NextPrevInverse(i: int, n: nat)
    requires 0 <= i < n
    ensures Prev(Next(At(i), n), n) == At(i)
    ensures Next(Prev(At(i), n), n) == At(i)
  {
    NextStep(i, n);
    PrevStep(i, n);
    var j := if i == n - 1 then 0 else i + 1;
    PrevStep(j, n);
    var k := if i == 0 then n - 1 else i - 1;
    NextStep(k, n);
  }

  /** `k` presses of the next button. */
  function NextTimes(idx: Index, k: nat, n: nat): Index
    decreases k
  {
    if k == 0 then idx else NextTimes(Next(idx, n), k - 1, n)
  }

  /** Pressing `a + b` times is pressing `a` times and then `b` times. */
  lemma {:induction false} NextTimesAdd(idx: Index, a: nat, b: nat, n: nat)
    ensures NextTimes(idx, a + b, n) == NextTimes(NextTimes(idx, a, n), b, n)
    decreases a
  {
    if a > 0 {
      NextTimesAdd(Next(idx, n), a - 1, b, n);
    }
  }

  /** Without reaching the end of the list, `k` presses of next move `k` slots right. */
  lemma {:induction false} NextTimesWithoutWrap(i: int, k: nat, n: nat)
    requires 0 <= i && i + k < n
    ensures NextTimes(At(i), k, n) == At(i + k)
    decreases k
  {
    if k > 0 {
      NextStep(i, n);
      NextTimesWithoutWrap(i + 1, k - 1, n);
    }
  }

  /** Pressing next `n` times returns to where it started. */
  lemma NextFullCycle(i: int, n: nat)
    requires 0 <= i < n
    ensures NextTimes(At(i), n, n) == At(i)
  {
    var toLast := n - 1 - i;
    NextTimesWithoutWrap(i, toLast, n);
    NextStep(n - 1, n);
    NextTimesWithoutWrap(0, i, n);
    NextTimesAdd(At(i), toLast, 1 + i, n);
    NextTimesAdd(At(n - 1), 1, i, n);
  }

  datatype Press = PressNext | PressPrev

  /** The index after a sequence of button presses, applied in order. */
  function Run(idx: Index, presses: seq<Press>, n: nat): Index
    decreases |presses|
  {
    if presses == [] then idx
    else Run(if presses[0] == PressNext then Next(idx, n) else Prev(idx, n), presses[1..], n)
  }

  /** `molecules[currentIndex]`: the slide's text, or nothing when the index is out of range or NaN. */
  function Displayed(molecules: seq<string>, idx: Index): (r: Option<string>)
    ensures r.Some? <==> InBounds(idx, |molecules|)
  {
    if InBounds(idx, |molecules|) then Some(molecules[idx.i]) else None
  }

  /** Any presses from a valid index keep it valid. */
  lemma {:induction false} RunKeepsInBounds(idx: Index, presses: seq<Press>, n: nat)
    requires InBounds(idx, n)
    ensures InBounds(Run(idx, presses, n), n)
    decreases |presses|
  {
    if presses != [] {
      var step := if presses[0] == PressNext then Next(idx, n) else Prev(idx, n);
      NextStep(idx.i, n);
      PrevStep(idx.i, n);
      RunKeepsInBounds(step, presses[1..], n);
    }
  }

  /** With at least one molecule, the slide always shows one of them, whatever was pressed. */
  lemma SlideAlwaysShowsAMolecule(molecules: seq<string>, presses: seq<Press>)
    requires |molecules| > 0
    ensures Displayed(molecules, Run(Start, presses, |molecules|)).Some?
    ensures Displayed(molecules, Run(Start, presses, |molecules|)).value in molecules
  {
    RunKeepsInBounds(Start, presses, |molecules|);
  }

  /** With no molecules, the index becomes NaN at the first press and the slide stays empty. */
  lemma {:induction false} EmptyCarouselShowsNothing(idx: Index, presses: seq<Press>)
    requires idx == Start || idx == NotANumber
    ensures Displayed([], Run(idx, presses, 0)) == None
    ensures presses != [] ==> Run(idx, presses, 0) == NotANumber
    decreases |presses|
  {
    if presses != [] {
      EmptyCarouselShowsNothing(NotANumber, presses[1..]);
    }
  }
}
