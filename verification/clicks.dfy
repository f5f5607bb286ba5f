/** The single/double click classification the virtual analog stick makes on
    every touch-down, from the uptime in milliseconds and the time and outcome of
    the previous touch-down. */
module Clicks {

  /** `CLICK_STATE`. */
  datatype ClickState = Single | Double

  /** `timeoutDoubleClick`, in milliseconds. */
  const TimeoutDoubleClick: int := 350

  /** A touch-down is a double click exactly when the previous one was a single
      click and came less than the timeout earlier. */
  function Classify(last: ClickState, timeLastClick: int, now: int): (c: ClickState)
    ensures c == Double <==> last == Single && now - timeLastClick < TimeoutDoubleClick
  {
    if last == Single && timeLastClick + TimeoutDoubleClick > now then Double else Single
  }

  /** The window is open for 349 ms after a single click and closed from 350 ms on. */
  lemma DoubleClickWindow(t: int)
    ensures Classify(Single, t, t + 349) == Double
    ensures Classify(Single, t, t + 350) == Single
    ensures forall now :: Classify(Double, t, now) == Single
  {
  }

  /** The outcomes of a run of touch-downs at the given times, starting from the
      stick's click state and `timeLastClick`. */
  function ClassifyAll(last: ClickState, timeLastClick: int, downs: seq<int>): (cs: seq<ClickState>)
    ensures |cs| == |downs|
    ensures |downs| > 0 ==> cs[0] == Classify(last, timeLastClick, downs[0])
    ensures forall i :: 0 < i < |downs| ==> cs[i] == Classify(cs[i - 1], downs[i - 1], downs[i])
    decreases |downs|
  {
    if downs == [] then []
    else
      var c := Classify(last, timeLastClick, downs[0]);
      [c] + ClassifyAll(c, downs[0], downs[1..])
  }

  /** However fast the taps come, two double clicks never follow each other: a
      double click always resets the classifier to single. */
  lemma {:induction false} NoTwoDoublesInARow(last: ClickState, timeLastClick: int, downs: seq<int>)
    ensures var cs := ClassifyAll(last, timeLastClick, downs);
            forall i :: 0 < i < |cs| ==> !(cs[i - 1] == Double && cs[i] == Double)
    ensures last == Double && |downs| > 0 ==> ClassifyAll(last, timeLastClick, downs)[0] == Single
    decreases |downs|
  {
    if downs != [] {
      var c := Classify(last, timeLastClick, downs[0]);
      NoTwoDoublesInARow(c, downs[0], downs[1..]);
      var cs := ClassifyAll(last, timeLastClick, downs);
      assert cs == [c] + ClassifyAll(c, downs[0], downs[1..]);
    }
  }
}
