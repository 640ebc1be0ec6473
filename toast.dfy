/** The toast value and the auto-dismiss machine of the toast view modifier.

    The modifier watches an optional toast. Whenever the toast value changes and a
    toast is present with a positive duration, the pending dismiss work item is
    cancelled and a fresh one is scheduled. Dismissing clears the toast and cancels
    the pending item. Time is not modelled: a scheduled item is identified by a
    generation number, and the dispatch queue reaching its deadline is the event
    `Fire(generation)`. */
module Toasts {
  import opened Common

  datatype ToastStyle = Grey

  /** The toast's width; the default is an unbounded (infinite) width. */
  datatype ToastWidth = Infinite | Points(points: int)

  /** Durations and offsets are whole numbers here; see README. */
  datatype Toast = Toast(style: ToastStyle, message: string, duration: int, width: ToastWidth, yOffset: int)

  const DefaultDuration: int := 3
  const DefaultYOffset: int := 638

  /** The memberwise initializer with every defaulted field left at its default. */
  function NewToast(style: ToastStyle, message: string): (t: Toast)
    ensures t.style == style && t.message == message
    ensures t.duration == 3 && t.width == Infinite && t.yOffset == 638
    ensures t.duration > 0
  {
    Toast(style, message, DefaultDuration, Infinite, DefaultYOffset)
  }

  /** The set holding the work item in the slot, if there is one. */
  function SlotItems(slot: Option<nat>): set<nat>
  {
    if slot.Some? then {slot.value} else {}
  }

  class ToastChannel {
    /** The toast binding the modifier observes. */
    var toast: Option<Toast>
    /** The `workItem` state slot: the generation of the work item it holds. */
    var workItem: Option<nat>
    /** Generation counter: the number given to the next work item scheduled. */
    var nextGeneration: nat
    /** Scheduled work items that have been neither cancelled nor run. */
    var live: set<nat>

    /** Only the work item in the slot can still run, and every generation in use
        was handed out by the counter. */
    ghost predicate Valid()
      reads this
    {
      live <= SlotItems(workItem) &&
      (workItem.Some? ==> workItem.value < nextGeneration)
    }

    constructor ()
      ensures Valid()
      ensures toast == None && workItem == None && live == {} && nextGeneration == 0
    {
      toast, workItem, nextGeneration, live := None, None, 0, {};
    }

    /** At most one dismiss timer is ever live. */
    lemma AtMostOneLive()
      requires Valid()
      ensures |live| <= 1
      ensures forall g :: g in live ==> workItem == Some(g)
    {
      if workItem.Some? {
        assert live <= {workItem.value};
        if live != {} {
          assert live == {workItem.value};
        }
      } else {
        assert live == {};
      }
    }

    /** The owner writes the binding. `onChange(of: toast)` runs `showToast` only when
        the new value differs from the old one. */
    method SetToast(t: Option<Toast>)
      requires Valid()
      modifies this
      ensures Valid() && toast == t
      ensures t == old(toast) ==>
        workItem == old(workItem) && live == old(live) && nextGeneration == old(nextGeneration)
      ensures t != old(toast) && t.Some? && t.value.duration > 0 ==>
        workItem == Some(old(nextGeneration)) && live == {old(nextGeneration)} &&
        nextGeneration == old(nextGeneration) + 1
      ensures t != old(toast) && (t.None? || t.value.duration <= 0) ==>
        workItem == old(workItem) && live == old(live) && nextGeneration == old(nextGeneration)
    {
      if t != toast {
        toast := t;
        ShowToast();
      }
    }

    /** `showToast`: with no toast it does nothing; with a positive duration it cancels
        the pending item and schedules exactly one new one; otherwise the pending item
        is left as it is. */
    method ShowToast()
      requires Valid()
      modifies this
      ensures Valid() && toast == old(toast)
      ensures toast.Some? && toast.value.duration > 0 ==>
        workItem == Some(old(nextGeneration)) && live == {old(nextGeneration)} &&
        nextGeneration == old(nextGeneration) + 1
      ensures toast.None? || toast.value.duration <= 0 ==>
        workItem == old(workItem) && live == old(live) && nextGeneration == old(nextGeneration)
    {
      if toast.Some? && toast.value.duration > 0 {
        // cancel the pending item, if any
        live := live - SlotItems(workItem);
        var task := nextGeneration;
        nextGeneration := nextGeneration + 1;
        workItem := Some(task);
        live := live + {task};
      }
    }

    /** `dismissToast`: clears the toast, cancels the pending item and empties the slot. */
    method DismissToast()
      requires Valid()
      modifies this
      ensures Valid()
      ensures toast == None && workItem == None && live == {}
      ensures nextGeneration == old(nextGeneration)
    {
      toast := None;
      live := live - SlotItems(workItem);
      workItem := None;
    }

    /** The deadline of work item `g` passes. A cancelled (or already run) item does
        nothing; a live one runs `dismissToast`. */
    method Fire(g: nat)
      requires Valid()
      modifies this
      ensures Valid()
      ensures g !in old(live) ==>
        toast == old(toast) && workItem == old(workItem) && live == old(live) &&
        nextGeneration == old(nextGeneration)
      ensures g in old(live) ==>
        toast == None && workItem == None && live == {} && nextGeneration == old(nextGeneration)
    {
      if g in live {
        live := live - {g};
        DismissToast();
      }
    }
  }

  /** Showing A and then a different B with a positive duration before A's timer runs:
      A's timer does nothing when its deadline passes, and B stays visible. */
  method ReplacedToastSurvivesOldTimer(a: Toast, b: Toast) returns (visible: Option<Toast>, timerAlive: bool)
    requires a.duration > 0 && b.duration > 0 && a != b
    ensures visible == Some(b)
    ensures timerAlive
  {
    var channel := new ToastChannel();
    channel.SetToast(Some(a));
    var first := channel.nextGeneration - 1;
    channel.SetToast(Some(b));
    channel.Fire(first);
    visible := channel.toast;
    timerAlive := channel.live != {};
  }

  /** As written, a toast with a non-positive duration does not cancel the timer of the
      toast it replaces, so that older timer dismisses it. */
  method OldTimerDismissesPersistentToast(a: Toast, b: Toast) returns (visible: Option<Toast>)
    requires a.duration > 0 && b.duration <= 0
    ensures visible == None
  {
    var channel := new ToastChannel();
    channel.SetToast(Some(a));
    var first := channel.nextGeneration - 1;
    channel.SetToast(Some(b));
    channel.Fire(first);
    visible := channel.toast;
  }
}
