/**
 * The standalone panel of `src/components/QuickActionsPanel.tsx`: the same
 * confirm-then-execute flow as the hook, over a loading set and a toast list, with the
 * action run by the caller's `onAction`. The awaited call is split into `Start` and
 * `Finish`; its outcome and the random toast ids are parameters.
 */
module QuickActionsPanel {
  import opened Strings
  import opened QuickActions

  datatype PanelAction = PanelAction(id: string, labelText: string, requiresConfirmation: bool, confirmationMessage: string, disabled: bool)

  /** How the awaited `onAction` ends: it resolves, or it throws an error with a message. */
  datatype Outcome = Resolved | Rejected(message: string)

  const DefaultConfirmation := "Are you sure you want to proceed?"

  /** The reset button is shown only for a positive count and a supplied `onResetCount`. */
  function ShowsReset(completedCount: int, hasOnReset: bool): (r: bool)
    ensures r <==> completedCount > 0 && hasOnReset
  {
    completedCount > 0 && hasOnReset
  }

  /** A button is disabled while its action runs or when the action itself is disabled. */
  function ButtonDisabled(loading: set<string>, a: PanelAction): (r: bool)
    ensures r <==> a.id in loading || a.disabled
  {
    a.id in loading || a.disabled
  }

  /** The confirmation text: the action's own message, or the default when it has none. */
  function ModalText(a: PanelAction): (r: string)
    ensures a.confirmationMessage != [] ==> r == a.confirmationMessage
    ensures a.confirmationMessage == [] ==> r == DefaultConfirmation
    ensures r != []
  {
    if a.confirmationMessage != [] then a.confirmationMessage else DefaultConfirmation
  }

  /** `${label} completed successfully`, or `${label} failed: ${message}`. */
  function OutcomeToast(a: PanelAction, outcome: Outcome, id: string): (t: Toast)
    ensures t.id == id && t.duration.None?
    ensures outcome.Resolved? ==> t.kind == Success && t.message == SuccessMessage(a.labelText)
    ensures outcome.Rejected? ==> t.kind == Error && t.message == a.labelText + " failed: " + outcome.message
  {
    match outcome
    case Resolved => Toast(id, SuccessMessage(a.labelText), Success, None)
    case Rejected(m) => Toast(id, a.labelText + " failed: " + m, Error, None)
  }

  class Panel {
    var loading: set<string>
    var pending: Option<PanelAction>
    var toasts: seq<Toast>
    /** Whether the caller supplied `onAction`. */
    const hasOnAction: bool

    constructor (onAction: bool)
      ensures hasOnAction == onAction && loading == {} && pending.None? && toasts == []
    {
      hasOnAction := onAction;
      loading := {};
      pending := None;
      toasts := [];
    }

    /** `dismissToast`, and the removal four seconds after a toast was added. */
    method DismissToast(id: string)
      modifies this
      ensures toasts == Dismissed(old(toasts), id)
      ensures loading == old(loading) && pending == old(pending)
    {
      toasts := Dismissed(toasts, id);
    }

    /** `executeAction` up to its `await`: the id joins the loading set. */
    method Start(a: PanelAction)
      modifies this
      ensures loading == old(loading) + {a.id}
      ensures pending == old(pending) && toasts == old(toasts)
    {
      loading := loading + {a.id};
    }

    /** `executeAction` after its `await`: one toast for the outcome, and the id leaves the loading set whatever happened. */
    method Finish(a: PanelAction, outcome: Outcome, toastId: string)
      modifies this
      ensures toasts == old(toasts) + [OutcomeToast(a, outcome, toastId)]
      ensures loading == old(loading) - {a.id} && a.id !in loading
      ensures pending == old(pending)
    {
      toasts := toasts + [OutcomeToast(a, outcome, toastId)];
      loading := loading - {a.id};
    }

    /**
     * `handleActionClick`: a disabled action or a missing `onAction` does nothing; an
     * action asking for confirmation becomes pending; any other one starts.
     */
    method HandleActionClick(a: PanelAction) returns (started: bool)
      modifies this
      ensures started <==> !a.disabled && hasOnAction && !a.requiresConfirmation
      ensures started ==> loading == old(loading) + {a.id} && pending == old(pending)
      ensures !started ==> loading == old(loading)
      ensures !a.disabled && hasOnAction && a.requiresConfirmation ==> pending == Some(a)
      ensures a.disabled || !hasOnAction ==> pending == old(pending)
      ensures toasts == old(toasts)
    {
      started := false;
      if a.disabled || !hasOnAction {
        return;
      }
      if a.requiresConfirmation {
        pending := Some(a);
        return;
      }
      Start(a);
      started := true;
    }

    /** `confirmAction` up to its `await`: the pending action starts and stays pending while it runs. */
    method ConfirmAction() returns (started: Option<PanelAction>)
      modifies this
      ensures started == old(pending) && pending == old(pending)
      ensures started.Some? ==> loading == old(loading) + {started.value.id}
      ensures started.None? ==> loading == old(loading)
      ensures toasts == old(toasts)
    {
      started := pending;
      if pending.Some? {
        Start(pending.value);
      }
    }

    /** `confirmAction` after its `await`: the execution finishes, then the pending action is cleared. */
    method FinishConfirmed(a: PanelAction, outcome: Outcome, toastId: string)
      modifies this
      ensures toasts == old(toasts) + [OutcomeToast(a, outcome, toastId)]
      ensures loading == old(loading) - {a.id}
      ensures pending.None?
    {
      Finish(a, outcome, toastId);
      pending := None;
    }

    /** `cancelAction` */
    method CancelAction()
      modifies this
      ensures pending.None? && loading == old(loading) && toasts == old(toasts)
    {
      pending := None;
    }
  }

  /**
   * A confirmed run from click to finish: the action is pending and in the loading set
   * while it runs, and afterwards nothing is pending, its id is no longer loading and
   * exactly one toast reports the outcome.
   */
  method ConfirmedRun(p: Panel, a: PanelAction, outcome: Outcome, toastId: string)
    requires p.hasOnAction && !a.disabled && a.requiresConfirmation
    modifies p
    ensures p.pending.None? && a.id !in p.loading
    ensures p.loading == old(p.loading) - {a.id}
    ensures p.toasts == old(p.toasts) + [OutcomeToast(a, outcome, toastId)]
  {
    var started := p.HandleActionClick(a);
    assert p.pending == Some(a);
    var running := p.ConfirmAction();
    assert running == Some(a) && a.id in p.loading && p.pending == Some(a);
    p.FinishConfirmed(a, outcome, toastId);
  }
}
