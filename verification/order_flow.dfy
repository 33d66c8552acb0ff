/** What the seven terminal order-flow sagas share: the signer acquisition,
    the "insufficient funds" remapping, and the bracket every one of them
    follows (raise `isSubmitting`, run steps that may throw, report success or
    the remapped error, lower `isSubmitting`). */
module OrderFlow {
  import opened Outcomes
  import opened Text
  import opened Actions

  const INSUFFICIENT_FUNDS: string := "insufficient funds"
  const WALLET_SIGNER_ERR: string := "Error getting eth wallet signer."
  const NO_OFFER_FOUND: string := "No offer found. It may have expired already!"
  const NO_COIN_SELECTED: string := "No coin selected for offer."
  const ERC20_REQUIRED: string := "Offers must use an ERC-20 token."

  /** The terminal actions of the order flow. */
  datatype Flow = AcceptOffer | CreateOffer | CreateOrder | CreateSellOrder | CreateTransfer | CancelListing | CancelOffer

  /** The message that replaces an error mentioning insufficient funds. */
  function InsufficientFundsMessage(flow: Flow): string {
    match flow
    case AcceptOffer => "You do not have enough funds to accept this offer."
    case CreateOffer => "You do not have enough funds to create this offer."
    case CreateOrder => "You do not have enough funds to create this order."
    case CreateSellOrder => "You do not have enough funds to sell this asset."
    case CreateTransfer => "You do not have enough funds to transfer this asset."
    case CancelListing => "You do not have enough funds to cancel this listing."
    case CancelOffer => "You do not have enough funds to cancel this offer."
  }

  function SuccessMessage(flow: Flow): string {
    match flow
    case AcceptOffer => "Successfully accepted offer!"
    case CreateOffer => "Successfully created offer!"
    case CreateOrder => "Successfully created order! It may take a few minutes to appear in your collection."
    case CreateSellOrder => "Sell order created!"
    case CreateTransfer => "Transfer successful!"
    case CancelListing => "Successfully cancelled listing!"
    case CancelOffer => "Successfully cancelled offer!"
  }

  /** What a completed flow dispatches before its success alert: close the
      modals, refresh the list it changed and navigate, in the source's order. */
  function SuccessSteps(flow: Flow): (steps: seq<Action>)
    ensures CloseAllModals in steps
    ensures forall a :: a in steps ==>
              a.CloseAllModals? || a.ClearAndRefetchAssets? || a.ClearAndRefetchOffersMade? ||
              a.ClearAndRefetchOrders? || a.RouterPush?
  {
    match flow
    case AcceptOffer => [CloseAllModals, ClearAndRefetchAssets]
    case CreateOffer => [CloseAllModals, ClearAndRefetchOffersMade, ClearAndRefetchOrders, RouterPush("/nfts/activity")]
    case CreateOrder => [CloseAllModals, RouterPush("/nfts/collection")]
    case CreateSellOrder => [ClearAndRefetchAssets, CloseAllModals]
    case CreateTransfer => [ClearAndRefetchAssets, CloseAllModals]
    case CancelListing => [ClearAndRefetchAssets, CloseAllModals]
    case CancelOffer => [ClearAndRefetchOffersMade, CloseAllModals]
  }

  /** What a flow dispatches once all its steps completed: the steps above,
      then its success alert last. */
  function SuccessEffects(flow: Flow): (effects: seq<Action>)
    ensures |effects| > 0 && effects[|effects| - 1] == DisplaySuccess(SuccessMessage(flow))
    ensures CloseAllModals in effects
    ensures forall a :: a in effects ==> !a.DisplayError? && !a.LogErrorMessage? && !a.SetOrderFlowIsSubmitting?
  {
    SuccessSteps(flow) + [DisplaySuccess(SuccessMessage(flow))]
  }

  /** Which list each flow refreshes on success, and where it navigates:
      accepting an offer, selling, transferring and cancelling a listing
      refetch the assets; creating or cancelling an offer refetch the offers
      made; creating an offer also refetches the orders and opens the activity
      page; creating an order refetches nothing and opens the collection page. */
  lemma SuccessRefetches(flow: Flow)
    ensures ClearAndRefetchAssets in SuccessEffects(flow) <==>
              flow.AcceptOffer? || flow.CreateSellOrder? || flow.CreateTransfer? || flow.CancelListing?
    ensures ClearAndRefetchOffersMade in SuccessEffects(flow) <==> flow.CreateOffer? || flow.CancelOffer?
    ensures ClearAndRefetchOrders in SuccessEffects(flow) <==> flow.CreateOffer?
    ensures RouterPush("/nfts/activity") in SuccessEffects(flow) <==> flow.CreateOffer?
    ensures RouterPush("/nfts/collection") in SuccessEffects(flow) <==> flow.CreateOrder?
  {
    StepsRefetch(flow);
    InSuccessEffects(flow, ClearAndRefetchAssets);
    InSuccessEffects(flow, ClearAndRefetchOffersMade);
    InSuccessEffects(flow, ClearAndRefetchOrders);
    InSuccessEffects(flow, RouterPush("/nfts/activity"));
    InSuccessEffects(flow, RouterPush("/nfts/collection"));
  }

  /** An action other than the alert is among the success effects exactly
      when it is among the steps before the alert. */
  lemma InSuccessEffects(flow: Flow, a: Action)
    requires !a.DisplaySuccess?
    ensures a in SuccessEffects(flow) <==> a in SuccessSteps(flow)
  {
  }

  /** The same for the steps before the alert. */
  lemma StepsRefetch(flow: Flow)
    ensures ClearAndRefetchAssets in SuccessSteps(flow) <==>
              flow.AcceptOffer? || flow.CreateSellOrder? || flow.CreateTransfer? || flow.CancelListing?
    ensures ClearAndRefetchOffersMade in SuccessSteps(flow) <==> flow.CreateOffer? || flow.CancelOffer?
    ensures ClearAndRefetchOrders in SuccessSteps(flow) <==> flow.CreateOffer?
    ensures RouterPush("/nfts/activity") in SuccessSteps(flow) <==> flow.CreateOffer?
    ensures RouterPush("/nfts/collection") in SuccessSteps(flow) <==> flow.CreateOrder?
  {
  }

  /** The text shown for an error: the flow's own message when the error text
      contains "insufficient funds" (case-sensitive), the error text otherwise. */
  function RemapError(flow: Flow, error: string): (shown: string)
    ensures Contains(error, INSUFFICIENT_FUNDS) ==> shown == InsufficientFundsMessage(flow)
    ensures !Contains(error, INSUFFICIENT_FUNDS) ==> shown == error
  {
    if Contains(error, INSUFFICIENT_FUNDS) then InsufficientFundsMessage(flow) else error
  }

  /** The catch block: the remapped text is logged and displayed (cancelling an
      offer displays before logging). */
  function ErrorReport(flow: Flow, error: string): (report: seq<Action>)
    ensures forall a :: a in report <==> a == DisplayError(RemapError(flow, error)) || a == LogErrorMessage(RemapError(flow, error))
    ensures |report| == 2 && (report[0].DisplayError? <==> flow.CancelOffer?)
  {
    var shown := RemapError(flow, error);
    if flow == CancelOffer then [DisplayError(shown), LogErrorMessage(shown)]
    else [LogErrorMessage(shown), DisplayError(shown)]
  }

  /** `getEthSigner`: whatever goes wrong while prompting for the password,
      reading the mnemonic or deriving the key, the caller sees one fixed error. */
  function GetEthSigner(signer: Outcome): (r: Outcome)
    ensures r.Pass? <==> signer.Pass?
    ensures r.Fail? ==> r.error == WALLET_SIGNER_ERR
  {
    if signer.Pass? then Pass else Fail(WALLET_SIGNER_ERR)
  }

  /** A text lacking one of the characters of "insufficient funds" is never remapped. */
  lemma NotRemappedWithout(flow: Flow, error: string, c: char)
    requires c in INSUFFICIENT_FUNDS && c !in error
    ensures RemapError(flow, error) == error
  {
    ContainsHasChars(error, INSUFFICIENT_FUNDS);
  }

  lemma SignerErrorLacksF()
    ensures 'f' !in WALLET_SIGNER_ERR
  {
  }

  lemma NoOfferErrorLacksC()
    ensures 'c' !in NO_OFFER_FOUND
  {
  }

  lemma NoCoinErrorLacksU()
    ensures 'u' !in NO_COIN_SELECTED
  {
  }

  lemma Erc20ErrorLacksC()
    ensures 'c' !in ERC20_REQUIRED
  {
  }

  /** None of the errors the sagas raise themselves mentions insufficient
      funds, so each is shown as it is in every flow. */
  lemma OwnErrorsShownVerbatim(flow: Flow)
    ensures RemapError(flow, WALLET_SIGNER_ERR) == WALLET_SIGNER_ERR
    ensures RemapError(flow, NO_OFFER_FOUND) == NO_OFFER_FOUND
    ensures RemapError(flow, NO_COIN_SELECTED) == NO_COIN_SELECTED
    ensures RemapError(flow, ERC20_REQUIRED) == ERC20_REQUIRED
  {
    assert 'f' in INSUFFICIENT_FUNDS by { assert INSUFFICIENT_FUNDS[4] == 'f'; }
    assert 'u' in INSUFFICIENT_FUNDS by { assert INSUFFICIENT_FUNDS[3] == 'u'; }
    assert 'c' in INSUFFICIENT_FUNDS by { assert INSUFFICIENT_FUNDS[7] == 'c'; }
    SignerErrorLacksF();
    NoOfferErrorLacksC();
    NoCoinErrorLacksU();
    Erc20ErrorLacksC();
    NotRemappedWithout(flow, WALLET_SIGNER_ERR, 'f');
    NotRemappedWithout(flow, NO_OFFER_FOUND, 'c');
    NotRemappedWithout(flow, NO_COIN_SELECTED, 'u');
    NotRemappedWithout(flow, ERC20_REQUIRED, 'c');
  }

  /** One step of a flow: an opaque effect, or an external call the log records,
      each completing or throwing. */
  datatype Step = Effect(outcome: Outcome) | Request(call: ApiCall, outcome: Outcome)

  /** The calls a run of steps made and how it ended. */
  datatype Ran = Ran(calls: seq<Action>, outcome: Outcome)

  /** Runs steps in order until one throws: the run fails with the first
      error, and records the calls of every step reached. */
  function Run(steps: seq<Step>): (r: Ran)
    ensures forall a :: a in r.calls ==> a.Called?
    ensures |r.calls| <= |steps|
    decreases |steps|
  {
    if steps == [] then Ran([], Pass)
    else
      var own := StepCalls(steps[0]);
      if steps[0].outcome.Fail? then Ran(own, steps[0].outcome)
      else
        var rest := Run(steps[1..]);
        Ran(own + rest.calls, rest.outcome)
  }

  /** The call a step records, if any. */
  function StepCalls(step: Step): seq<Action> {
    if step.Request? then [Called(step.call)] else []
  }

  /** Steps after one that threw are never reached: they add no call and do
      not change how the run ends. */
  lemma {:induction false} RunSkipsAfterFailure(steps: seq<Step>, more: seq<Step>)
    requires Run(steps).outcome.Fail?
    ensures Run(steps + more) == Run(steps)
    decreases |steps|
  {
    assert steps != [];
    assert (steps + more)[0] == steps[0];
    if steps[0].outcome.Pass? {
      assert (steps + more)[1..] == steps[1..] + more;
      RunSkipsAfterFailure(steps[1..], more);
    }
  }

  /** A try block whose first failing statement is `steps[i]` records the calls
      up to and including that statement, none after it, and ends with its error. */
  lemma {:induction false} RunEndsAtFirstFailure(steps: seq<Step>, i: nat)
    requires i < |steps| && steps[i].outcome.Fail?
    requires forall j :: 0 <= j < i ==> steps[j].outcome.Pass?
    ensures Run(steps) == Run(steps[..i + 1])
    ensures Run(steps).calls == Calls(steps[..i + 1])
    ensures Run(steps).outcome == steps[i].outcome
    decreases i
  {
    var upTo := steps[..i + 1];
    assert upTo[0] == steps[0];
    if i > 0 {
      RunEndsAtFirstFailure(steps[1..], i - 1);
      assert upTo[1..] == steps[1..][..i];
    } else {
      assert Calls(upTo) == StepCalls(steps[0]) + Calls([]);
    }
  }

  /** The calls the given steps record when every one of them is reached, in order. */
  function Calls(steps: seq<Step>): (calls: seq<Action>)
    ensures |calls| <= |steps|
    decreases |steps|
  {
    if steps == [] then [] else StepCalls(steps[0]) + Calls(steps[1..])
  }

  /** A try block in which no statement throws completes and records the call
      of every request it holds, in order. */
  lemma {:induction false} RunAllPass(steps: seq<Step>)
    requires forall j :: 0 <= j < |steps| ==> steps[j].outcome.Pass?
    ensures Run(steps) == Ran(Calls(steps), Pass)
    decreases |steps|
  {
    if steps != [] {
      RunAllPass(steps[1..]);
    }
  }

  /** How a flow ends once the steps in `rest` have run after the ones that
      led to `sofar`: nothing more happens after an error. */
  function Continue(sofar: Ran, rest: seq<Step>): (r: Ran)
    ensures sofar.outcome.Fail? ==> r == sofar
    ensures sofar.outcome.Pass? ==> r.outcome == Run(rest).outcome
  {
    if sofar.outcome.Fail? then sofar else Ran(sofar.calls + Run(rest).calls, Run(rest).outcome)
  }

  /** Running the next step moves it from the pending steps to the run so far. */
  lemma ContinueStep(sofar: Ran, rest: seq<Step>)
    requires rest != []
    ensures Continue(sofar, rest)
         == Continue(if sofar.outcome.Fail? then sofar else Ran(sofar.calls + StepCalls(rest[0]), rest[0].outcome),
                     rest[1..])
  {
    if sofar.outcome.Pass? && rest[0].outcome.Pass? {
      var own, more := StepCalls(rest[0]), Run(rest[1..]);
      assert sofar.calls + (own + more.calls) == sofar.calls + own + more.calls;
    }
  }

  /** Nothing pending: the run so far is how the flow ends. */
  lemma ContinueDone(sofar: Ran)
    ensures Continue(sofar, []) == sofar
  {
    assert sofar.calls + [] == sofar.calls;
  }

  /** A run completes exactly when every step completes; otherwise it ends with
      the error of the first step that threw. */
  lemma {:induction false} RunStopsAtFirstError(steps: seq<Step>)
    ensures Run(steps).outcome.Pass? <==> forall i :: 0 <= i < |steps| ==> steps[i].outcome.Pass?
    ensures Run(steps).outcome.Fail? ==>
              exists i :: 0 <= i < |steps| && steps[i].outcome == Run(steps).outcome &&
                          forall j :: 0 <= j < i ==> steps[j].outcome.Pass?
    decreases |steps|
  {
    if steps != [] && steps[0].outcome.Pass? {
      RunStopsAtFirstError(steps[1..]);
      assert forall i :: 1 <= i < |steps| ==> steps[i] == steps[1..][i - 1];
      if Run(steps).outcome.Fail? {
        var i :| 0 <= i < |steps[1..]| && steps[1..][i].outcome == Run(steps).outcome &&
                 forall j :: 0 <= j < i ==> steps[1..][j].outcome.Pass?;
        assert steps[i + 1].outcome == Run(steps).outcome;
      }
    }
  }

  /** How a flow ends: the first error of the steps before the flag is raised,
      otherwise the first error of the steps after it, otherwise success. */
  function Settled(before: seq<Step>, after: seq<Step>): Outcome {
    if Run(before).outcome.Fail? then Run(before).outcome else Run(after).outcome
  }

  /** What a flow dispatches up to its last step: the calls of the `before`
      steps, then, if they all completed, `isSubmitting = true` and the calls of
      the `after` steps. */
  function Opening(before: seq<Step>, after: seq<Step>): (opening: seq<Action>)
    ensures forall a :: a in opening ==> a.Called? || a == SetOrderFlowIsSubmitting(true)
    ensures SetOrderFlowIsSubmitting(true) in opening <==> Run(before).outcome.Pass?
  {
    var first := Run(before);
    if first.outcome.Fail? then first.calls
    else first.calls + [SetOrderFlowIsSubmitting(true)] + Run(after).calls
  }

  /** The success effects, or the report of the error the flow ended with. */
  function Closing(flow: Flow, end: Outcome): seq<Action> {
    if end.Fail? then ErrorReport(flow, end.error) else SuccessEffects(flow)
  }

  /** Everything a terminal flow dispatches: its opening, then the success
      effects or the error report, and always `isSubmitting = false` last. */
  function Bracket(flow: Flow, before: seq<Step>, after: seq<Step>): seq<Action> {
    Opening(before, after) + Closing(flow, Settled(before, after)) + [SetOrderFlowIsSubmitting(false)]
  }

  /** Regrouping a log extended by a bracket; stated on plain sequences so that
      no definition is unfolded while proving it. */
  lemma Regroup(p: seq<Action>, a: seq<Action>, b: seq<Action>, c: seq<Action>, d: seq<Action>, e: seq<Action>)
    ensures p + (a + b + c + d + e) == p + a + b + c + d + e
    ensures a == [] ==> p + (a + b + c + d + e) == p + b + c + d + e
  {
    assert p + [] == p;
  }

  lemma RegroupThree(p: seq<Action>, a: seq<Action>, b: seq<Action>, c: seq<Action>)
    ensures p + (a + b + c) == p + a + b + c
  {
  }

  /** A flow that raises the flag before any step: its actions given how its steps ran. */
  lemma BracketRaisedFirst(flow: Flow, after: seq<Step>, calls: seq<Action>, end: Outcome, prefix: seq<Action>)
    requires Run(after) == Ran(calls, end)
    ensures prefix + Bracket(flow, [], after)
         == prefix + [SetOrderFlowIsSubmitting(true)] + calls + Closing(flow, end) + [SetOrderFlowIsSubmitting(false)]
  {
    assert Run([]) == Ran([], Pass);
    Regroup(prefix, [], [SetOrderFlowIsSubmitting(true)], calls, Closing(flow, end), [SetOrderFlowIsSubmitting(false)]);
  }

  /** A flow whose checks run before the flag is raised: its actions given how
      the checks and the remaining steps ran. */
  lemma BracketChecksFirst(flow: Flow, before: seq<Step>, after: seq<Step>, checks: seq<Action>, first: Outcome,
                           calls: seq<Action>, end: Outcome, prefix: seq<Action>)
    requires Run(before) == Ran(checks, first)
    requires Run(after) == Ran(calls, end)
    ensures first.Fail? ==>
              prefix + Bracket(flow, before, after)
              == prefix + checks + Closing(flow, first) + [SetOrderFlowIsSubmitting(false)]
    ensures first.Pass? ==>
              prefix + Bracket(flow, before, after)
              == prefix + checks + [SetOrderFlowIsSubmitting(true)] + calls + Closing(flow, end) +
                 [SetOrderFlowIsSubmitting(false)]
  {
    if first.Fail? {
      RegroupThree(prefix, checks, Closing(flow, first), [SetOrderFlowIsSubmitting(false)]);
    } else {
      Regroup(prefix, checks, [SetOrderFlowIsSubmitting(true)], calls, Closing(flow, end),
              [SetOrderFlowIsSubmitting(false)]);
    }
  }

  /** The value of `isSubmitting` after the store applied `actions`, starting from `flag`. */
  function SubmittingAfter(flag: bool, actions: seq<Action>): bool
    decreases |actions|
  {
    if actions == [] then flag
    else SubmittingAfter(if actions[0].SetOrderFlowIsSubmitting? then actions[0].isSubmitting else flag, actions[1..])
  }

  lemma {:induction false} SubmittingAfterAppend(flag: bool, a: seq<Action>, b: seq<Action>)
    ensures SubmittingAfter(flag, a + b) == SubmittingAfter(SubmittingAfter(flag, a), b)
    decreases |a|
  {
    if a != [] {
      assert (a + b)[0] == a[0] && (a + b)[1..] == a[1..] + b;
      SubmittingAfterAppend(if a[0].SetOrderFlowIsSubmitting? then a[0].isSubmitting else flag, a[1..], b);
    } else {
      assert a + b == b;
    }
  }

  /** Whatever state the flag was in and however the flow ends, `isSubmitting`
      is false once the flow has run, and the last action lowers it. */
  lemma BracketClearsSubmitting(flow: Flow, before: seq<Step>, after: seq<Step>, flag: bool)
    ensures var b := Bracket(flow, before, after);
            |b| > 0 && b[|b| - 1] == SetOrderFlowIsSubmitting(false) && !SubmittingAfter(flag, b)
  {
    var b := Bracket(flow, before, after);
    var last := [SetOrderFlowIsSubmitting(false)];
    assert b == b[..|b| - 1] + last;
    SubmittingAfterAppend(flag, b[..|b| - 1], last);
  }

  /** The flag is raised exactly when the steps before it completed. */
  lemma BracketRaisesFlagIff(flow: Flow, before: seq<Step>, after: seq<Step>)
    ensures SetOrderFlowIsSubmitting(true) in Bracket(flow, before, after) <==> Run(before).outcome.Pass?
  {
    var closing := Closing(flow, Settled(before, after));
    assert SetOrderFlowIsSubmitting(true) !in closing;
  }

  /** The closing holds the success alert exactly when the flow ended well,
      and otherwise logs and displays one and the same text: the error, remapped. */
  lemma ClosingReports(flow: Flow, end: Outcome)
    ensures var closing := Closing(flow, end);
            (DisplaySuccess(SuccessMessage(flow)) in closing <==> end.Pass?) &&
            (forall m :: DisplayError(m) in closing <==> end.Fail? && m == RemapError(flow, end.error)) &&
            (forall m :: LogErrorMessage(m) in closing <==> end.Fail? && m == RemapError(flow, end.error))
  {
    var closing := Closing(flow, end);
    if end.Fail? {
      assert forall m :: DisplaySuccess(m) !in closing;
    } else {
      assert closing[|closing| - 1] == DisplaySuccess(SuccessMessage(flow));
    }
  }

  /** Putting calls and flag changes before the closing does not change which
      alerts and log entries the flow dispatches. */
  lemma ReportsAfterOpening(flow: Flow, opening: seq<Action>, end: Outcome)
    requires forall a :: a in opening ==> a.Called? || a.SetOrderFlowIsSubmitting?
    ensures var b := opening + Closing(flow, end) + [SetOrderFlowIsSubmitting(false)];
            (DisplaySuccess(SuccessMessage(flow)) in b <==> end.Pass?) &&
            (forall m :: DisplayError(m) in b <==> end.Fail? && m == RemapError(flow, end.error)) &&
            (forall m :: LogErrorMessage(m) in b <==> end.Fail? && m == RemapError(flow, end.error))
  {
    ClosingReports(flow, end);
    var closing := Closing(flow, end);
    InFrame(opening, closing, DisplaySuccess(SuccessMessage(flow)));
    forall m
      ensures DisplayError(m) in opening + closing + [SetOrderFlowIsSubmitting(false)] <==> DisplayError(m) in closing
    {
      InFrame(opening, closing, DisplayError(m));
    }
    forall m
      ensures LogErrorMessage(m) in opening + closing + [SetOrderFlowIsSubmitting(false)]
          <==> LogErrorMessage(m) in closing
    {
      InFrame(opening, closing, LogErrorMessage(m));
    }
  }

  /** An alert or log entry is in a framed closing exactly when it is in the closing. */
  lemma InFrame(opening: seq<Action>, closing: seq<Action>, x: Action)
    requires forall a :: a in opening ==> a.Called? || a.SetOrderFlowIsSubmitting?
    requires !x.Called? && !x.SetOrderFlowIsSubmitting?
    ensures x in opening + closing + [SetOrderFlowIsSubmitting(false)] <==> x in closing
  {
  }

  /** The flow shows its success alert exactly when every step completed, and
      otherwise logs and displays one and the same text: the first error, remapped. */
  lemma BracketReports(flow: Flow, before: seq<Step>, after: seq<Step>)
    ensures var b := Bracket(flow, before, after);
            var end := Settled(before, after);
            (DisplaySuccess(SuccessMessage(flow)) in b <==> end.Pass?) &&
            (forall m :: DisplayError(m) in b <==> end.Fail? && m == RemapError(flow, end.error)) &&
            (forall m :: LogErrorMessage(m) in b <==> end.Fail? && m == RemapError(flow, end.error))
  {
    ReportsAfterOpening(flow, Opening(before, after), Settled(before, after));
  }
}
