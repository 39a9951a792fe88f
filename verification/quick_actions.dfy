/**
 * The quick-actions hook of `src/components/quick-actions/useQuickActions.ts`: a
 * confirm-then-execute flow over five fixed actions, a per-action loading flag, a toast
 * list, and a completed-actions counter kept in local storage. The simulated one-second
 * call is split into `Start` and `Finish`; random toast ids are parameters.
 */
module QuickActions {
  import opened Strings
  import opened Seqs

  datatype Action = Action(id: string, labelText: string, requiresConfirmation: bool, confirmationMessage: string)

  datatype Kind = Success | Error | Info

  /** A toast; the hook gives each one a duration of 3000 ms, the panel none. */
  datatype Toast = Toast(id: string, message: string, kind: Kind, duration: Option<nat>)

  const ToastDuration: nat := 3000

  /** `ACTIONS` (icons and variants left out). */
  const Actions: seq<Action> := [
    Action("restart-gateway", "Restart Gateway", true, "This will temporarily disconnect all agents. Are you sure?"),
    Action("trigger-heartbeat", "Trigger Heartbeat", false, ""),
    Action("run-daily-brief", "Run Daily Brief", false, ""),
    Action("pause-resume-crons", "Pause/Resume Crons", true, "This will affect all scheduled tasks. Continue?"),
    Action("clear-sessions", "Clear Sessions", true, "All active sessions will be terminated. This cannot be undone.")
  ]

  /** `dismissToast`: drops the toasts with that id and keeps the others in order. */
  function Dismissed(toasts: seq<Toast>, id: string): (r: seq<Toast>)
    ensures forall t :: t in r <==> t in toasts && t.id != id
    ensures |r| <= |toasts|
  {
    Filter(toasts, (t: Toast) => t.id != id)
  }

  /** Dismissing an id no toast has leaves the list as it is. */
  lemma DismissUnknown(toasts: seq<Toast>, id: string)
    requires forall t :: t in toasts ==> t.id != id
    ensures Dismissed(toasts, id) == toasts
  {
    FilterAll(toasts, (t: Toast) => t.id != id);
  }

  /** The load effect: a non-empty stored item gives `parseInt(stored, 10) || 0`; otherwise the count stays. */
  function LoadedCount(stored: Option<string>, current: int): (r: int)
    ensures stored.None? || stored.value == [] ==> r == current
    ensures stored.Some? && stored.value != [] ==> r == ParsedOr(ParseInt(stored.value, false), 0)
  {
    if stored.Some? && stored.value != [] then ParsedOr(ParseInt(stored.value, false), 0) else current
  }

  /** A saved counter is read back unchanged. */
  lemma SavedCountReadBack(n: int, current: int)
    ensures LoadedCount(Some(IntToString(n)), current) == n
  {
    ParseIntOfIntToString(n);
    assert IntToString(n) != [];
  }

  /** A stored item that is not a number loads as 0. */
  lemma GarbageLoadsZero(s: string, current: int)
    requires s != [] && ParseInt(s, false).None?
    ensures LoadedCount(Some(s), current) == 0
  {
  }

  function SuccessMessage(labelText: string): (m: string)
    ensures |m| == |labelText| + 23
    ensures m[..|labelText|] == labelText && m[|labelText|..] == " completed successfully"
  {
    labelText + " completed successfully"
  }

  /** `Failed to ${label.toLowerCase()}` */
  function FailureMessage(labelText: string): (m: string)
    ensures |m| == 10 + |labelText|
    ensures m[..10] == "Failed to " && m[10..] == Lower(labelText)
  {
    "Failed to " + Lower(labelText)
  }

  class Hook {
    var completed: int
    var loading: map<string, bool>
    var toasts: seq<Toast>
    var pending: Option<Action>
    /** The local storage item `mc-quick-actions-completed`. */
    var stored: Option<string>

    /** The save effect has caught up: the stored item is the counter as text. */
    predicate Saved()
      reads this
    {
      stored == Some(IntToString(completed))
    }

    /**
     * Mounting: the load effect reads the stored item and the save effect writes the
     * counter; when the load changed the counter the save effect runs again.
     */
    constructor (item: Option<string>)
      ensures completed == LoadedCount(item, 0) && Saved()
      ensures loading == map[] && toasts == [] && pending.None?
    {
      completed := 0;
      loading := map[];
      toasts := [];
      pending := None;
      stored := Some(IntToString(0));
      var loaded := LoadedCount(item, 0);
      if loaded != 0 {
        completed := loaded;
        stored := Some(IntToString(loaded));
      }
    }

    /** `addToast`, with the random id as a parameter. */
    method AddToast(message: string, kind: Kind, id: string)
      modifies this
      ensures toasts == old(toasts) + [Toast(id, message, kind, Some(ToastDuration))]
      ensures completed == old(completed) && loading == old(loading) && pending == old(pending) && stored == old(stored)
    {
      toasts := toasts + [Toast(id, message, kind, Some(ToastDuration))];
    }

    method DismissToast(id: string)
      modifies this
      ensures toasts == Dismissed(old(toasts), id)
      ensures completed == old(completed) && loading == old(loading) && pending == old(pending) && stored == old(stored)
    {
      toasts := Dismissed(toasts, id);
    }

    /** `executeAction` up to its `await`: the action's loading flag is set. */
    method Start(a: Action)
      modifies this
      ensures loading == old(loading)[a.id := true]
      ensures completed == old(completed) && toasts == old(toasts) && pending == old(pending) && stored == old(stored)
    {
      loading := loading[a.id := true];
    }

    /**
     * `executeAction` after its `await`: a success adds one to the counter (saved at
     * once) and one success toast; the `catch` branch, which the simulated call never
     * reaches, adds one error toast. Either way the flag is cleared.
     */
    method Finish(a: Action, failed: bool, toastId: string)
      requires Saved()
      modifies this
      ensures Saved() && pending == old(pending) && loading == old(loading)[a.id := false]
      ensures !failed ==> completed == old(completed) + 1
      ensures !failed ==> toasts == old(toasts) + [Toast(toastId, SuccessMessage(a.labelText), Success, Some(ToastDuration))]
      ensures failed ==> completed == old(completed)
      ensures failed ==> toasts == old(toasts) + [Toast(toastId, FailureMessage(a.labelText), Error, Some(ToastDuration))]
    {
      if !failed {
        completed := completed + 1;
        stored := Some(IntToString(completed));
        AddToast(SuccessMessage(a.labelText), Success, toastId);
      } else {
        AddToast(FailureMessage(a.labelText), Error, toastId);
      }
      loading := loading[a.id := false];
    }

    /** `handleActionClick`: an action asking for confirmation becomes pending; any other one starts. */
    method HandleActionClick(a: Action)
      modifies this
      ensures a.requiresConfirmation ==> pending == Some(a) && loading == old(loading)
      ensures !a.requiresConfirmation ==> pending == old(pending) && loading == old(loading)[a.id := true]
      ensures completed == old(completed) && toasts == old(toasts) && stored == old(stored)
    {
      if a.requiresConfirmation {
        pending := Some(a);
      } else {
        Start(a);
      }
    }

    /** `confirmAction`: starts the pending action and clears it at once, or does nothing. */
    method ConfirmAction() returns (started: Option<Action>)
      modifies this
      ensures started == old(pending) && pending.None?
      ensures started.Some? ==> loading == old(loading)[started.value.id := true]
      ensures started.None? ==> loading == old(loading)
      ensures completed == old(completed) && toasts == old(toasts) && stored == old(stored)
    {
      started := pending;
      if pending.Some? {
        Start(pending.value);
        pending := None;
      }
    }

    /** `cancelAction`: clears the pending action without running it. */
    method CancelAction()
      modifies this
      ensures pending.None?
      ensures completed == old(completed) && loading == old(loading) && toasts == old(toasts) && stored == old(stored)
    {
      pending := None;
    }

    /** `resetCounter`: the counter becomes 0 (and is saved) and one info toast appears. */
    method ResetCounter(toastId: string)
      modifies this
      ensures completed == 0 && Saved()
      ensures toasts == old(toasts) + [Toast(toastId, "Actions counter reset", Info, Some(ToastDuration))]
      ensures loading == old(loading) && pending == old(pending)
    {
      completed := 0;
      stored := Some(IntToString(0));
      AddToast("Actions counter reset", Info, toastId);
    }
  }

  /**
   * A confirmed run from click to finish: the pending action is cleared as soon as it
   * starts, and a successful run adds exactly one to the saved counter and one toast.
   */
  method ConfirmedRun(h: Hook, a: Action, toastId: string)
    requires a.requiresConfirmation && h.Saved()
    modifies h
    ensures h.pending.None? && h.Saved()
    ensures h.completed == old(h.completed) + 1
    ensures h.loading == old(h.loading)[a.id := false]
    ensures h.toasts == old(h.toasts) + [Toast(toastId, SuccessMessage(a.labelText), Success, Some(ToastDuration))]
  {
    h.HandleActionClick(a);
    var started := h.ConfirmAction();
    assert started == Some(a) && h.pending.None? && h.loading[a.id];
    h.Finish(a, false, toastId);
  }
}
