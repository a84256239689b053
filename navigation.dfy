/** The page strip of the application shell: six pages shown one at a time,
    a forward and a back control, and the per-page gate on moving forward. */
module Navigation {
  import opened Wrappers

  /** Home, wallet, create/join, calendar, results, final. */
  const NumPages: int := 6

  predicate IsPage(p: int) {
    0 <= p < NumPages
  }

  /** The updater `nextPage` hands to `setPage`: one page forward, except on the last page. */
  function NextPage(p: int): (q: int)
    ensures IsPage(p) ==> IsPage(q)
    ensures q == p || q == p + 1
    ensures q == p <==> p == NumPages - 1
  {
    if p == NumPages - 1 then p else p + 1
  }

  /** The updater of the back control: one page back, except on the first page. */
  function PrevPage(p: int): (q: int)
    ensures IsPage(p) ==> IsPage(q)
    ensures q == p || q == p - 1
    ensures q == p <==> p == 0
  {
    if p == 0 then p else p - 1
  }

  datatype Step = Forward | Back

  /** The page reached from `p` by pressing the controls in the order `steps`. */
  function Navigate(p: int, steps: seq<Step>): int
    decreases |steps|
  {
    if steps == [] then p
    else Navigate(if steps[0] == Forward then NextPage(p) else PrevPage(p), steps[1..])
  }

  /** However the controls are pressed, the page index stays within the strip. */
  lemma {:induction false} NavigateStaysOnPages(p: int, steps: seq<Step>)
    requires IsPage(p)
    ensures IsPage(Navigate(p, steps))
    decreases |steps|
  {
    if steps != [] {
      NavigateStaysOnPages(if steps[0] == Forward then NextPage(p) else PrevPage(p), steps[1..]);
    }
  }

  function Repeat(s: Step, k: nat): (r: seq<Step>)
    ensures |r| == k
  {
    if k == 0 then [] else [s] + Repeat(s, k - 1)
  }

  /** `k` forward presses from page `p` stop at the last page. */
  lemma {:induction false} ForwardSaturates(p: int, k: nat)
    requires IsPage(p)
    ensures Navigate(p, Repeat(Forward, k)) == if p + k < NumPages then p + k else NumPages - 1
    decreases k
  {
    if k > 0 {
      assert Repeat(Forward, k)[1..] == Repeat(Forward, k - 1);
      ForwardSaturates(NextPage(p), k - 1);
    }
  }

  /** `k` back presses from page `p` stop at the first page. */
  lemma {:induction false} BackSaturates(p: int, k: nat)
    requires IsPage(p)
    ensures Navigate(p, Repeat(Back, k)) == if p - k >= 0 then p - k else 0
    decreases k
  {
    if k > 0 {
      assert Repeat(Back, k)[1..] == Repeat(Back, k - 1);
      BackSaturates(PrevPage(p), k - 1);
    }
  }

  /** `canProceed(page)`: the wallet page needs an account, the create/join page
      needs a session code, every other page lets the user go on. */
  function CanProceed<A>(page: int, account: Option<A>, meetingId: Option<string>): bool {
    match page
    case 0 => true
    case 1 => account.Some?
    case 2 => meetingId.Some?
    case 3 => true
    case _ => true
  }

  lemma CanProceedGates<A>(page: int, account: Option<A>, meetingId: Option<string>)
    ensures CanProceed(page, account, meetingId) <==>
      (page == 1 ==> account.Some?) && (page == 2 ==> meetingId.Some?)
  {
  }

  /** The forward control is greyed out on the last page and wherever the page's gate is shut. */
  function ForwardDisabled<A>(page: int, account: Option<A>, meetingId: Option<string>): bool {
    page == NumPages - 1 || !CanProceed(page, account, meetingId)
  }

  /** The back control is greyed out on the first page. */
  function BackDisabled(page: int): bool {
    page == 0
  }

  /** An enabled control always moves the page: the clamp in the updaters only
      matters on the page where the control is disabled. */
  lemma EnabledControlsMove<A>(page: int, account: Option<A>, meetingId: Option<string>)
    requires IsPage(page)
    ensures !ForwardDisabled(page, account, meetingId) ==> NextPage(page) == page + 1
    ensures !BackDisabled(page) ==> PrevPage(page) == page - 1
    ensures ForwardDisabled(page, account, meetingId) <==>
      page == NumPages - 1 || (page == 1 && account.None?) || (page == 2 && meetingId.None?)
  {
  }
}
