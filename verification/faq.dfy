/** The FAQ accordion: at most one answer is open at a time, and clicking a
    question opens it or, when it is already open, closes it. */
module Faq {
  import opened Outcomes

  /** The number of questions on the page. */
  const QuestionCount := 7

  /** Every click lands on one of the page's questions. */
  predicate OnPage(clicks: seq<nat>) {
    forall k :: 0 <= k < |clicks| ==> clicks[k] < QuestionCount
  }

  /** Which answer is open, if any. */
  type Accordion = Option<nat>

  const Closed: Accordion := None

  /** `toggleFAQ(i)`. */
  function Toggle(open: Accordion, i: nat): (open': Accordion)
    ensures open == Some(i) ==> open' == None
    ensures open != Some(i) ==> open' == Some(i)
  {
    if open == Some(i) then None else Some(i)
  }

  /** Whether question `i`'s answer is shown. */
  predicate Visible(open: Accordion, i: nat) {
    open == Some(i)
  }

  /** Clicking question `i` shows its answer exactly when it was hidden,
      and hides every other answer. */
  lemma ToggleShowsOnlyClicked(open: Accordion, i: nat, j: nat)
    ensures Visible(Toggle(open, i), i) <==> !Visible(open, i)
    ensures j != i ==> !Visible(Toggle(open, i), j)
  {
  }

  /** At most one answer is visible in any state reachable by clicks. This
      holds by representation: like the page's single `openIndex`, an
      `Accordion` names at most one question, whatever the clicks were. */
  lemma AtMostOneVisible(clicks: seq<nat>, j: nat, k: nat)
    requires Visible(Clicks(Closed, clicks), j) && Visible(Clicks(Closed, clicks), k)
    ensures j == k
  {
  }

  /** The accordion after a sequence of clicks. */
  function Clicks(open: Accordion, clicks: seq<nat>): (open': Accordion)
    ensures open'.Some? ==> |clicks| > 0 || open.Some?
    ensures |clicks| > 0 ==> open' == Toggle(Clicks(open, clicks[..|clicks| - 1]), clicks[|clicks| - 1])
  {
    if |clicks| == 0 then open
    else Toggle(Clicks(open, clicks[..|clicks| - 1]), clicks[|clicks| - 1])
  }

  /** Clicking the same question twice restores the question's state: an
      answer that was open is open again, and any other state ends with
      every answer closed. */
  lemma ToggleTwice(open: Accordion, i: nat)
    ensures Toggle(Toggle(open, i), i) == (if open == Some(i) then Some(i) else None)
    ensures Visible(Toggle(Toggle(open, i), i), i) <==> Visible(open, i)
  {
  }

  /** Clicks on the page's questions only ever open one of them. */
  lemma {:induction false} OpenAnswerIsOnPage(clicks: seq<nat>)
    requires OnPage(clicks)
    ensures Clicks(Closed, clicks).Some? ==> Clicks(Closed, clicks).value < QuestionCount
  {
    if |clicks| > 0 {
      OpenAnswerIsOnPage(clicks[..|clicks| - 1]);
    }
  }

  /** The last click decides: after any clicks that end with question `i`,
      the open answer is `i` or none, and it is `i` exactly when the state
      before that click did not show it. */
  lemma {:induction false} LastClickDecides(clicks: seq<nat>)
    requires |clicks| > 0
    ensures var i := clicks[|clicks| - 1];
            var before := Clicks(Closed, clicks[..|clicks| - 1]);
            Clicks(Closed, clicks) == (if Visible(before, i) then None else Some(i))
  {
  }
}
