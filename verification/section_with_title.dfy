/**
 * The `section-with-title` element: a title and a two-state toggle between
 * the active and the archived notes, which announces each switch with one
 * `view-change` event.
 */
module Section {
  import opened Wrappers
  import opened Notes

  predicate IsViewMode(m: string) {
    m == ActiveMode || m == ArchivedMode
  }

  /**
   * One run of `_handleViewChange(requested)` from mode `current`: the new
   * mode and the events dispatched.
   */
  function ViewChangeStep(current: string, requested: string): (r: (string, seq<Event>))
    ensures r.0 == requested
    ensures r.1 == [] <==> current == requested
    ensures |r.1| <= 1 && forall e :: e in r.1 ==> e == ViewChange(requested)
  {
    if current == requested then (current, []) else (requested, [ViewChange(requested)])
  }

  /** `k` listeners on one button, each running the handler in turn. */
  function ViewChangeSteps(k: nat, current: string, requested: string): (string, seq<Event>) {
    if k == 0 then (current, [])
    else
      var (m, es) := ViewChangeStep(current, requested);
      var (m', es') := ViewChangeSteps(k - 1, m, requested);
      (m', es + es')
  }

  /**
   * However many listeners a button has collected, one click switches to the
   * requested mode and dispatches at most one `view-change`: the guard turns
   * every run after the first into a no-op.
   */
  lemma {:induction false} RepeatedHandlersEmitOnce(k: nat, current: string, requested: string)
    ensures ViewChangeSteps(k, current, requested).0 == if k == 0 then current else requested
    ensures ViewChangeSteps(k, current, requested).1
            == if k == 0 || current == requested then [] else [ViewChange(requested)]
  {
    if k > 0 {
      RepeatedHandlersEmitOnce(k - 1, ViewChangeStep(current, requested).0, requested);
    }
  }

  class SectionWithTitle {
    /** `_title`. */
    var title: string
    /** The text of the heading. */
    var heading: string
    /** `_viewMode`. */
    var viewMode: string
    /** Whether `#activeBtn` / `#archivedBtn` carry the `active` class. */
    var activeBtnOn: bool
    var archivedBtnOn: bool
    /** The text of the two count badges; `None` while still empty. */
    var activeCount: Option<int>
    var archivedCount: Option<int>
    /**
     * How many click listeners each toggle button carries. Both `render` and
     * `connectedCallback` attach one, and `_removeEventListeners` passes a
     * different function than the one attached, so none is ever removed.
     */
    var listeners: nat

    /** `_viewMode` is one of the two modes and the buttons show it. */
    ghost predicate Valid()
      reads this
    {
      IsViewMode(viewMode)
      && activeBtnOn == (viewMode == ActiveMode)
      && archivedBtnOn == (viewMode == ArchivedMode)
    }

    /** Construction renders once; `titleAttr` is the `title` attribute the heading shows then. */
    constructor (titleAttr: string)
      ensures Valid()
      ensures title == "NEED SECTION TITLE" && heading == titleAttr
      ensures viewMode == ActiveMode && activeBtnOn && !archivedBtnOn
      ensures activeCount == None && archivedCount == None
      ensures listeners == 1
    {
      title, heading, viewMode := "NEED SECTION TITLE", titleAttr, ActiveMode;
      activeBtnOn, archivedBtnOn := true, false;
      activeCount, archivedCount := None, None;
      listeners := 1;
    }

    method ConnectedCallback()
      modifies this`listeners
      ensures listeners == old(listeners) + 1
    {
      listeners := listeners + 1;
    }

    /** Removes nothing: the listeners stay attached. */
    method DisconnectedCallback()
      ensures unchanged(this)
    {
    }

    /** `_updateButtonStates`: exactly the button of the current mode is marked. */
    method UpdateButtonStates()
      requires IsViewMode(viewMode)
      modifies this`activeBtnOn, this`archivedBtnOn
      ensures Valid()
      ensures activeBtnOn != archivedBtnOn
    {
      activeBtnOn := viewMode == ActiveMode;
      archivedBtnOn := viewMode == ArchivedMode;
    }

    /** `_handleViewChange(mode)`: a no-op for the current mode, else switch and announce. */
    method HandleViewChange(mode: string) returns (events: seq<Event>)
      requires Valid() && IsViewMode(mode)
      modifies this`viewMode, this`activeBtnOn, this`archivedBtnOn
      ensures Valid()
      ensures (viewMode, events) == ViewChangeStep(old(viewMode), mode)
      ensures old(viewMode) == mode ==> unchanged(this)
      ensures old(viewMode) != mode ==> viewMode == mode && events == [ViewChange(mode)]
    {
      if viewMode == mode {
        return [];
      }
      viewMode := mode;
      UpdateButtonStates();
      events := [ViewChange(mode)];
    }

    /** A click on the button for `mode`: every attached listener runs the handler. */
    method ClickToggle(mode: string) returns (events: seq<Event>)
      requires Valid() && IsViewMode(mode)
      modifies this`viewMode, this`activeBtnOn, this`archivedBtnOn
      ensures Valid()
      ensures viewMode == if listeners == 0 then old(viewMode) else mode
      ensures events == if listeners == 0 || old(viewMode) == mode then [] else [ViewChange(mode)]
    {
      events := [];
      var i := 0;
      while i < listeners
        invariant 0 <= i <= listeners
        invariant Valid()
        invariant (viewMode, events) == ViewChangeSteps(i, old(viewMode), mode)
      {
        var es := HandleViewChange(mode);
        StepsSnoc(i, old(viewMode), mode);
        events := events + es;
        i := i + 1;
      }
      RepeatedHandlersEmitOnce(listeners, old(viewMode), mode);
    }

    /** `updateCounts(activeCount = 0, archivedCount = 0)`: both badges written, a missing count as 0. */
    method UpdateCounts(active: Option<int>, archived: Option<int>)
      modifies this`activeCount, this`archivedCount
      ensures activeCount == Some(if active.Some? then active.value else 0)
      ensures archivedCount == Some(if archived.Some? then archived.value else 0)
    {
      activeCount := Some(if active.Some? then active.value else 0);
      archivedCount := Some(if archived.Some? then archived.value else 0);
    }

    /** Only `title` is observed; an unchanged value is ignored. */
    method AttributeChangedCallback(name: string, oldValue: Option<string>, newValue: string)
      modifies this`title, this`heading
      ensures oldValue != Some(newValue) && name == "title" ==> title == newValue && heading == newValue
      ensures oldValue == Some(newValue) || name != "title" ==> unchanged(this)
    {
      if oldValue == Some(newValue) {
        return;
      }
      if name == "title" {
        title := newValue;
        heading := newValue;
      }
    }
  }

  /** Running one more listener extends the step sequence at its end. */
  lemma {:induction false} StepsSnoc(k: nat, current: string, requested: string)
    ensures var (m, es) := ViewChangeSteps(k, current, requested);
            var (m', es') := ViewChangeStep(m, requested);
            ViewChangeSteps(k + 1, current, requested) == (m', es + es')
  {
    if k > 0 {
      var first := ViewChangeStep(current, requested);
      StepsSnoc(k - 1, first.0, requested);
      var rest := ViewChangeSteps(k - 1, first.0, requested);
      var last := ViewChangeStep(rest.0, requested);
      assert ViewChangeSteps(k, current, requested) == (rest.0, first.1 + rest.1);
      assert ViewChangeSteps(k + 1, current, requested) == (last.0, first.1 + (rest.1 + last.1));
      assert first.1 + (rest.1 + last.1) == (first.1 + rest.1) + last.1;
    } else {
      var first := ViewChangeStep(current, requested);
      assert ViewChangeSteps(1, current, requested) == (first.0, first.1 + []);
      assert first.1 + [] == [] + first.1;
    }
  }
}
