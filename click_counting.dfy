/**
 * Click counting for keyboard events (input_event.py:369-406) and mouse
 * button events (input_event.py:1003-1020), as functions of what the
 * events' setClickCount methods read.
 */
module ClickCounting {

  import opened Wrappers

  /** An accessible object, compared by identity; None is Python's None. */
  type ObjId = int

  /**
   * What setClickCount reads from the double-click candidate: its count,
   * the focus object when it was made, and the focus object after its
   * handler ran.
   */
  datatype CandidateView = CandidateView(clickCount: nat, obj: Option<ObjId>, objAfterConsuming: Option<ObjId>)

  /**
   * The previous keyboard event qualifies as a double-click candidate: same
   * text and at most `timeout` time units older (input_event.py:369-378).
   */
  predicate QualifiesAsCandidate(lastText: string, lastTime: int, text: string, time: int, timeout: int) {
    lastText == text && time - lastTime <= timeout
  }

  /**
   * The keyboard click count (input_event.py:380-406): 1 without a
   * candidate; a duplicate or a release repeats the candidate's count; a
   * press after a candidate below 3 whose handler left the focus where it
   * was counts one more; anything else starts again at 1.
   */
  function KeyClickCount(candidate: Option<CandidateView>, isDuplicate: bool, pressed: bool): (n: nat)
    ensures candidate.None? ==> n == 1
    ensures candidate.Some? && (isDuplicate || !pressed) ==> n == candidate.value.clickCount
    ensures n != 1 ==>
              (candidate.Some? &&
               (n == candidate.value.clickCount || (pressed && n == candidate.value.clickCount + 1 <= 3)))
    ensures candidate.Some? && !isDuplicate && pressed && candidate.value.clickCount >= 3 ==> n == 1
    ensures candidate.None? || 1 <= candidate.value.clickCount <= 3 ==> 1 <= n <= 3
  {
    if candidate.None? then 1
    else
      var c := candidate.value;
      if isDuplicate || !pressed then c.clickCount
      else if c.clickCount < 3 then
        (if c.obj != c.objAfterConsuming then 1 else c.clickCount + 1)
      else 1
  }

  /** A new press after an undisturbed candidate below 3 counts one more. */
  lemma KeyClickCountIncrements(c: CandidateView)
    requires c.clickCount < 3 && c.obj == c.objAfterConsuming
    ensures KeyClickCount(Some(c), false, true) == c.clickCount + 1
  {
  }

  /**
   * A handler that moved the focus makes the next press a single click
   * again; so does a candidate that was never consumed while it had a focus
   * object, since its objAfterConsuming is still None.
   */
  lemma FocusChangeResetsCount(c: CandidateView)
    requires c.clickCount < 3
    requires c.obj != c.objAfterConsuming
    ensures KeyClickCount(Some(c), false, true) == 1
  {
  }

  /** The count of successive presses of one key, each consumed without a focus change. */
  function PressRun(k: nat, obj: Option<ObjId>): (n: nat)
    decreases k
  {
    if k == 0 then 1 else KeyClickCount(Some(CandidateView(PressRun(k - 1, obj), obj, obj)), false, true)
  }

  /**
   * Successive presses cycle through single, double and triple click:
   * the k-th press (from 0) counts k mod 3 + 1.
   */
  lemma {:induction false} PressRunCycles(k: nat, obj: Option<ObjId>)
    ensures PressRun(k, obj) == k % 3 + 1
  {
    if k > 0 {
      PressRunCycles(k - 1, obj);
    }
  }

  /**
   * The mouse click count AS WRITTEN (input_event.py:1003-1020): a release
   * keeps the event's own count; a press after something that is not a
   * mouse button event counts 1; a press within the timeout (strictly) on
   * the same button as the last mouse event adds one to the EVENT'S OWN
   * count while that is below 2; anything else counts 1.
   */
  function MouseClickCount(pressed: bool, ownCount: nat, lastIsMouse: bool, lastTime: int, lastButton: string,
                           time: int, button: string, timeout: int): (n: nat)
    ensures !pressed ==> n == ownCount
    ensures pressed ==> 1 <= n <= 2
    ensures ownCount <= 2 ==> n <= 2
    ensures pressed && n == 2 ==> lastIsMouse && lastButton == button && time - lastTime < timeout
  {
    if !pressed then ownCount
    else if !lastIsMouse then 1
    else if time - lastTime < timeout && lastButton == button && ownCount < 2 then ownCount + 1
    else 1
  }

  /**
   * A freshly constructed mouse event has count 0, so one call counts 1
   * whatever the previous event was.
   */
  lemma FreshMouseEventCountsOne(lastIsMouse: bool, lastTime: int, lastButton: string, time: int, button: string, timeout: int)
    ensures MouseClickCount(true, 0, lastIsMouse, lastTime, lastButton, time, button, timeout) == 1
  {
  }

  /**
   * A second call within the timeout on the same button makes it a double
   * click, and a third starts again at 1: the mouse ceiling is 2.
   */
  lemma MouseCountCeiling(lastTime: int, button: string, time: int, timeout: int)
    requires time - lastTime < timeout
    ensures var once := MouseClickCount(true, 0, true, lastTime, button, time, button, timeout);
            var twice := MouseClickCount(true, once, true, lastTime, button, time, button, timeout);
            var thrice := MouseClickCount(true, twice, true, lastTime, button, time, button, timeout);
            once == 1 && twice == 2 && thrice == 1
  {
  }
}
