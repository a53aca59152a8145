/** The counter page: one field, incremented on every click. */
module Counter {

  class CounterState {
    var clicks: int

    constructor ()
      ensures clicks == 0
    {
      clicks := 0;
    }
  }

  /** The effect of one click on the count. */
  function Clicked(clicks: int): (r: int)
    ensures r > clicks
  {
    clicks + 1
  }

  /** `on_button_click`. */
  method OnButtonClick(state: CounterState)
    modifies state
    ensures state.clicks == Clicked(old(state.clicks))
  {
    state.clicks := state.clicks + 1;
  }

  /** The count of a fresh counter after n clicks. */
  function ClicksAfter(n: nat): (r: int)
    ensures r >= n
  {
    if n == 0 then 0 else Clicked(ClicksAfter(n - 1))
  }

  /** A fresh counter clicked n times shows n. */
  lemma {:induction false} ClicksAfterCounts(n: nat)
    ensures ClicksAfter(n) == n
  {
    if n > 0 {
      ClicksAfterCounts(n - 1);
    }
  }

  /** The count never goes down and is never negative. */
  lemma ClicksNeverDecrease(m: nat, n: nat)
    requires m <= n
    ensures 0 <= ClicksAfter(m) <= ClicksAfter(n)
    ensures Clicked(ClicksAfter(n)) > ClicksAfter(n)
  {
    ClicksAfterCounts(m);
    ClicksAfterCounts(n);
  }
}
