/** The testimonial carousel (`Testimonials`): the index of the testimonial on show, moved
    by the arrows and the dots. */
module Testimonials {

  /** `testimonials.length`. */
  const Count := 5

  /** JavaScript's `%`: the remainder takes the sign of the dividend. */
  function JsRem(a: int, n: int): (r: int)
    requires n > 0
    ensures a >= 0 ==> 0 <= r < n && r == a % n
    ensures a < 0 ==> -n < r <= 0
  {
    if a >= 0 then a % n else -((-a) % n)
  }

  /** `nextTestimonial`: from an index in range, the following one, the last wrapping to
      the first. */
  function Next(i: int): (r: int)
    ensures InRange(i) ==> InRange(r)
    ensures InRange(i) ==> r == (if i == Count - 1 then 0 else i + 1)
  {
    JsRem(i + 1, Count)
  }

  /** `prevTestimonial`: from an index in range, the preceding one, the first wrapping to
      the last. */
  function Prev(i: int): (r: int)
    ensures InRange(i) ==> InRange(r)
    ensures InRange(i) ==> r == (if i == 0 then Count - 1 else i - 1)
  {
    JsRem(i - 1 + Count, Count)
  }

  predicate InRange(i: int) {
    0 <= i < Count
  }

  /** Both arrows keep the index in range; the last wraps to the first and back. */
  lemma ArrowsStayInRange(i: int)
    requires InRange(i)
    ensures InRange(Next(i)) && InRange(Prev(i))
    ensures Next(i) == (if i == Count - 1 then 0 else i + 1)
    ensures Prev(i) == (if i == 0 then Count - 1 else i - 1)
  {
  }

  /** The arrows undo each other. */
  lemma ArrowsAreInverse(i: int)
    requires InRange(i)
    ensures Prev(Next(i)) == i && Next(Prev(i)) == i
  {
    ArrowsStayInRange(i);
    ArrowsStayInRange(Next(i));
    ArrowsStayInRange(Prev(i));
  }

  /** The index after `n` presses of the right arrow (or `n` auto-rotation ticks). */
  function NextTimes(i: int, n: nat): int {
    if n == 0 then i else Next(NextTimes(i, n - 1))
  }

  /** `n` steps forward move the index `n` places round the circle. */
  lemma {:induction false} NextTimesIsShift(i: int, n: nat)
    requires InRange(i)
    ensures NextTimes(i, n) == (i + n) % Count
  {
    if n > 0 {
      NextTimesIsShift(i, n - 1);
      ArrowsStayInRange(NextTimes(i, n - 1));
    }
  }

  /** Going once round the testimonials returns to the starting one. */
  lemma FullCircle(i: int)
    requires InRange(i)
    ensures NextTimes(i, Count) == i
  {
    NextTimesIsShift(i, Count);
  }

  /** The carousel opens on the first testimonial. */
  const InitialIndex := 0

  /** The dots under the carousel, one per testimonial: the one for the index on show is
      highlighted, and no other. A dot's click sets the index to that dot's own. */
  function Dots(current: int): (r: seq<bool>)
    requires InRange(current)
    ensures |r| == Count
    ensures r[current]
    ensures forall k :: 0 <= k < Count && k != current ==> !r[k]
  {
    seq(Count, k => k == current)
  }
}
