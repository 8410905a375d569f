/** `ElementInteractionBase`: the element helpers pages and components build
    on. Every selector is scoped under an optional base selector; a lookup
    waits for the element and then locates it; the probes turn a wait's
    timeout into `false`. `WaitForElementAsync` scopes its argument itself,
    so the helpers that pass it an already scoped selector wait on the
    selector scoped twice while they act on it scoped once.

    Playwright's answers are parameters: the exception a wait or an action
    throws, the text or attribute value an element reports. */
module Elements {
  import opened Common
  import opened Text
  import opened World
  import opened Polling

  /** `GetScopedSelector`: the selector under the base selector, separated
      by one space. */
  function Scoped(baseSelector: Option<string>, selector: string): (r: string)
    ensures baseSelector.None? ==> r == selector
    ensures baseSelector.Some? ==> |r| == |baseSelector.value| + 1 + |selector| && r[|baseSelector.value|] == ' '
  {
    match baseSelector
    case None => selector
    case Some(b) => b + " " + selector
  }

  /** The state switch: the four names Playwright knows map to their state,
      anything else to `Visible`. */
  function WaitState(state: string): (s: SelectorState)
    ensures s == Hidden <==> state == "hidden"
    ensures s == Attached <==> state == "attached"
    ensures s == Detached <==> state == "detached"
    ensures s == Visible <==> state != "hidden" && state != "attached" && state != "detached"
  {
    if state == "visible" then Visible
    else if state == "hidden" then Hidden
    else if state == "attached" then Attached
    else if state == "detached" then Detached
    else Visible
  }

  /** The calls `WaitForElementAsync(selector, state)` makes: a debug line
      naming the scoped selector and the state as given, then the wait. */
  function WaitEffects(baseSelector: Option<string>, timeout: int, selector: string, state: string): seq<Effect>
  {
    var scoped := Scoped(baseSelector, selector);
    [Logged(Debug, "Waiting for element: " + scoped + " with state: " + state),
     SelectorWaited(scoped, WaitState(state), timeout)]
  }

  /** What a probe answers for the outcome of its wait: `true` when it
      completes, `false` on a timeout, and any other exception propagates. */
  function Probe(waitFault: Option<Exception>): (r: Result<bool>)
    ensures r == Ok(true) <==> waitFault.None?
    ensures r == Ok(false) <==> waitFault.Some? && waitFault.value.kind == ExceptionKind.Timeout
    ensures r.Err? <==> waitFault.Some? && waitFault.value.kind != ExceptionKind.Timeout
    ensures r.Err? ==> r.error == waitFault.value
  {
    match waitFault
    case None => Ok(true)
    case Some(e) => if e.kind == ExceptionKind.Timeout then Ok(false) else Err(e)
  }

  /** The calls an action helper makes: its debug line, the lookup's wait on
      the selector scoped twice, then the action on the selector scoped once
      unless the wait threw. */
  function ActionSteps(baseSelector: Option<string>, timeout: int, selector: string, message: string,
                       action: ElementAction, waitFault: Option<Exception>, actionFault: Option<Exception>): Steps
  {
    var scoped := Scoped(baseSelector, selector);
    Then(Steps([Logged(Debug, message + scoped)] + WaitEffects(baseSelector, timeout, scoped, "visible"), waitFault),
         Steps([ElementActed(scoped, action)], actionFault))
  }

  /** `HasClassAsync`'s test: `className` is one of the pieces of the class
      attribute split at single spaces. */
  predicate HasClass(classAttribute: string, className: string)
  {
    className in Split(classAttribute, ' ')
  }

  class ElementInteraction {
    const world: World
    const baseSelector: Option<string>
    /** `Settings.Timeouts.Element`, in milliseconds. */
    const elementTimeout: int

    constructor(world: World, baseSelector: Option<string>, elementTimeout: int)
      ensures this.world == world && this.baseSelector == baseSelector && this.elementTimeout == elementTimeout
    {
      this.world := world;
      this.baseSelector := baseSelector;
      this.elementTimeout := elementTimeout;
    }

    /** `WaitForElementAsync(selector, state)`; `waitFault` is what the wait
        throws. */
    method WaitForElementAsync(selector: string, state: string, waitFault: Option<Exception>)
      returns (thrown: Option<Exception>)
      modifies world
      ensures world.log == old(world.log) + WaitEffects(baseSelector, elementTimeout, selector, state)
      ensures thrown == waitFault
    {
      var scoped := Scoped(baseSelector, selector);
      world.log := world.log + [Logged(Debug, "Waiting for element: " + scoped + " with state: " + state)];
      world.log := world.log + [SelectorWaited(scoped, WaitState(state), elementTimeout)];
      thrown := waitFault;
    }

    /** `GetElementAsync`: the located element, given by its selector. */
    method GetElementAsync(selector: string, waitFault: Option<Exception>) returns (r: Result<string>)
      modifies world
      ensures world.log == old(world.log) + WaitEffects(baseSelector, elementTimeout, Scoped(baseSelector, selector), "visible")
      ensures r == if waitFault.Some? then Err(waitFault.value) else Ok(Scoped(baseSelector, selector))
    {
      var scoped := Scoped(baseSelector, selector);
      var thrown := WaitForElementAsync(scoped, "visible", waitFault);
      if thrown.Some? {
        return Err(thrown.value);
      }
      r := Ok(scoped);
    }

    /** The shape every action helper shares. */
    method Act(selector: string, message: string, action: ElementAction,
               waitFault: Option<Exception>, actionFault: Option<Exception>)
      returns (thrown: Option<Exception>)
      modifies world
      ensures world.log == old(world.log) + ActionSteps(baseSelector, elementTimeout, selector, message, action, waitFault, actionFault).effects
      ensures thrown == ActionSteps(baseSelector, elementTimeout, selector, message, action, waitFault, actionFault).fault
    {
      var scoped := Scoped(baseSelector, selector);
      world.log := world.log + [Logged(Debug, message + scoped)];
      var element := GetElementAsync(selector, waitFault);
      if element.Err? {
        return Some(element.error);
      }
      world.log := world.log + [ElementActed(element.value, action)];
      thrown := actionFault;
    }

    method ClickAsync(selector: string, waitFault: Option<Exception>, actionFault: Option<Exception>)
      returns (thrown: Option<Exception>)
      modifies world
      ensures world.log == old(world.log) + ActionSteps(baseSelector, elementTimeout, selector, "Clicking element: ", Click, waitFault, actionFault).effects
      ensures thrown == ActionSteps(baseSelector, elementTimeout, selector, "Clicking element: ", Click, waitFault, actionFault).fault
    {
      thrown := Act(selector, "Clicking element: ", Click, waitFault, actionFault);
    }

    method TypeTextAsync(selector: string, text: string, waitFault: Option<Exception>, actionFault: Option<Exception>)
      returns (thrown: Option<Exception>)
      modifies world
      ensures world.log == old(world.log) + ActionSteps(baseSelector, elementTimeout, selector, "Typing text into element: ", Fill(text), waitFault, actionFault).effects
      ensures thrown == ActionSteps(baseSelector, elementTimeout, selector, "Typing text into element: ", Fill(text), waitFault, actionFault).fault
    {
      thrown := Act(selector, "Typing text into element: ", Fill(text), waitFault, actionFault);
    }

    method SelectOptionAsync(selector: string, value: string, waitFault: Option<Exception>, actionFault: Option<Exception>)
      returns (thrown: Option<Exception>)
      modifies world
      ensures world.log == old(world.log) + ActionSteps(baseSelector, elementTimeout, selector, "Selecting option in dropdown: ", SelectOption(value), waitFault, actionFault).effects
      ensures thrown == ActionSteps(baseSelector, elementTimeout, selector, "Selecting option in dropdown: ", SelectOption(value), waitFault, actionFault).fault
    {
      thrown := Act(selector, "Selecting option in dropdown: ", SelectOption(value), waitFault, actionFault);
    }

    method HoverAsync(selector: string, waitFault: Option<Exception>, actionFault: Option<Exception>)
      returns (thrown: Option<Exception>)
      modifies world
      ensures world.log == old(world.log) + ActionSteps(baseSelector, elementTimeout, selector, "Hovering over element: ", Hover, waitFault, actionFault).effects
      ensures thrown == ActionSteps(baseSelector, elementTimeout, selector, "Hovering over element: ", Hover, waitFault, actionFault).fault
    {
      thrown := Act(selector, "Hovering over element: ", Hover, waitFault, actionFault);
    }

    method ScrollIntoViewAsync(selector: string, waitFault: Option<Exception>, actionFault: Option<Exception>)
      returns (thrown: Option<Exception>)
      modifies world
      ensures world.log == old(world.log) + ActionSteps(baseSelector, elementTimeout, selector, "Scrolling element into view: ", ScrollIntoView, waitFault, actionFault).effects
      ensures thrown == ActionSteps(baseSelector, elementTimeout, selector, "Scrolling element into view: ", ScrollIntoView, waitFault, actionFault).fault
    {
      thrown := Act(selector, "Scrolling element into view: ", ScrollIntoView, waitFault, actionFault);
    }

    /** `DragAndDropAsync`: both elements are looked up, source first, before
        the drag. */
    method DragAndDropAsync(source: string, target: string, sourceFault: Option<Exception>,
                            targetFault: Option<Exception>, actionFault: Option<Exception>)
      returns (thrown: Option<Exception>)
      modifies world
      ensures var s := Scoped(baseSelector, source);
              var t := Scoped(baseSelector, target);
              var steps := Then(Steps([Logged(Debug, "Performing drag and drop from " + s + " to " + t)]
                                      + WaitEffects(baseSelector, elementTimeout, s, "visible"), sourceFault),
                           Then(Steps(WaitEffects(baseSelector, elementTimeout, t, "visible"), targetFault),
                                Steps([ElementActed(s, DragTo(t))], actionFault)));
              world.log == old(world.log) + steps.effects && thrown == steps.fault
    {
      var s := Scoped(baseSelector, source);
      var t := Scoped(baseSelector, target);
      world.log := world.log + [Logged(Debug, "Performing drag and drop from " + s + " to " + t)];
      var sourceElement := GetElementAsync(source, sourceFault);
      if sourceElement.Err? {
        return Some(sourceElement.error);
      }
      var targetElement := GetElementAsync(target, targetFault);
      if targetElement.Err? {
        return Some(targetElement.error);
      }
      world.log := world.log + [ElementActed(sourceElement.value, DragTo(targetElement.value))];
      thrown := actionFault;
    }

    /** `GetTextAsync`: `content` is the element's text content, absent when
        Playwright reports null. */
    method GetTextAsync(selector: string, waitFault: Option<Exception>, content: Option<string>) returns (r: Result<string>)
      modifies world
      ensures world.log == old(world.log) + WaitEffects(baseSelector, elementTimeout, Scoped(baseSelector, selector), "visible")
      ensures waitFault.Some? ==> r == Err(waitFault.value)
      ensures waitFault.None? && content.Some? ==> r == Ok(content.value)
      ensures waitFault.None? && content.None? ==> r == Ok("")
    {
      var element := GetElementAsync(selector, waitFault);
      if element.Err? {
        return Err(element.error);
      }
      r := Ok(if content.Some? then content.value else "");
    }

    /** `IsElementVisibleAsync`. */
    method IsElementVisibleAsync(selector: string, waitFault: Option<Exception>) returns (r: Result<bool>)
      modifies world
      ensures world.log == old(world.log) + WaitEffects(baseSelector, elementTimeout, Scoped(baseSelector, selector), "visible")
      ensures r == Probe(waitFault)
    {
      var thrown := WaitForElementAsync(Scoped(baseSelector, selector), "visible", waitFault);
      r := Probe(thrown);
    }

    /** `IsElementPresentAsync`: the same probe in the attached state. */
    method IsElementPresentAsync(selector: string, waitFault: Option<Exception>) returns (r: Result<bool>)
      modifies world
      ensures world.log == old(world.log) + WaitEffects(baseSelector, elementTimeout, Scoped(baseSelector, selector), "attached")
      ensures r == Probe(waitFault)
    {
      var thrown := WaitForElementAsync(Scoped(baseSelector, selector), "attached", waitFault);
      r := Probe(thrown);
    }

    /** `GetAttributeAsync`: `value` is the attribute's value, absent when
        the element has no such attribute. */
    method GetAttributeAsync(selector: string, attributeName: string, waitFault: Option<Exception>, value: Option<string>)
      returns (r: Result<string>)
      modifies world
      ensures world.log == old(world.log) + WaitEffects(baseSelector, elementTimeout, Scoped(baseSelector, selector), "visible")
      ensures waitFault.Some? ==> r == Err(waitFault.value)
      ensures waitFault.None? && value.Some? ==> r == Ok(value.value)
      ensures waitFault.None? && value.None? ==> r == Ok("")
    {
      var element := GetElementAsync(selector, waitFault);
      if element.Err? {
        return Err(element.error);
      }
      r := Ok(if value.Some? then value.value else "");
    }

    /** `HasClassAsync`: `classValue` is the element's class attribute. */
    method HasClassAsync(selector: string, className: string, waitFault: Option<Exception>, classValue: Option<string>)
      returns (r: Result<bool>)
      modifies world
      ensures world.log == old(world.log) + WaitEffects(baseSelector, elementTimeout, Scoped(baseSelector, selector), "visible")
      ensures waitFault.Some? ==> r == Err(waitFault.value)
      ensures waitFault.None? ==>
                r == Ok(HasClass(if classValue.Some? then classValue.value else "", className))
    {
      var attribute := GetAttributeAsync(selector, "class", waitFault, classValue);
      if attribute.Err? {
        return Err(attribute.error);
      }
      r := Ok(HasClass(attribute.value, className));
    }

    method WaitForNetworkIdleAsync()
      modifies world
      ensures world.log == old(world.log) + [Logged(Debug, "Waiting for network idle"), LoadStateWaited("NetworkIdle")]
    {
      world.log := world.log + [Logged(Debug, "Waiting for network idle")];
      world.log := world.log + [LoadStateWaited("NetworkIdle")];
    }

    method WaitForDomContentLoadedAsync()
      modifies world
      ensures world.log == old(world.log) + [Logged(Debug, "Waiting for DOM content loaded"), LoadStateWaited("DOMContentLoaded")]
    {
      world.log := world.log + [Logged(Debug, "Waiting for DOM content loaded")];
      world.log := world.log + [LoadStateWaited("DOMContentLoaded")];
    }
  }

  /** `WaitForConditionAsync`: `elapsedMs(j)` is the time since the start
      read before the `j`-th evaluation of the condition. True at the first
      evaluation that holds while under the timeout, false once the timeout
      has elapsed, and a throwing condition propagates. A timeout that has
      already elapsed at the first reading evaluates nothing. */
  method WaitForConditionAsync(condition: nat -> Result<bool>, elapsedMs: nat -> int, timeout: int, ghost bound: nat)
    returns (r: Result<bool>, evaluations: nat)
    requires timeout <= elapsedMs(bound)
    ensures forall j :: 0 <= j < evaluations ==> elapsedMs(j) < timeout
    ensures forall j :: 0 <= j < evaluations - 1 ==> condition(j) == Ok(false)
    ensures r == Ok(true) ==> evaluations >= 1 && condition(evaluations - 1) == Ok(true)
    ensures r.Err? ==> evaluations >= 1 && condition(evaluations - 1) == r
    ensures r == Ok(false) ==> elapsedMs(evaluations) >= timeout && forall j :: 0 <= j < evaluations ==> condition(j) == Ok(false)
    ensures timeout <= elapsedMs(0) ==> evaluations == 0 && r == Ok(false)
  {
    r, evaluations := PollUntil(condition, elapsedMs, timeout, bound);
  }

  /** The scoping quirk: with a base selector, a lookup waits on the base
      repeated twice in front of the selector, but locates the element under
      the base once. */
  lemma LookupScopesTwice(b: string, timeout: int, selector: string)
    ensures WaitEffects(Some(b), timeout, Scoped(Some(b), selector), "visible")[1]
            == SelectorWaited(b + " " + b + " " + selector, Visible, timeout)
    ensures Scoped(Some(b), selector) == b + " " + selector
  {
    assert b + " " + (b + " " + selector) == b + " " + b + " " + selector;
  }

  /** Without a base selector, scoping is the identity and waits target the
      selector itself. */
  lemma NoBaseNoScoping(timeout: int, selector: string, state: string)
    ensures WaitEffects(None, timeout, Scoped(None, selector), state)[1] == SelectorWaited(selector, WaitState(state), timeout)
  {
  }

  /** An action is performed only when its lookup completed, and always on
      the selector scoped once. */
  lemma ActionOnlyAfterLookup(baseSelector: Option<string>, timeout: int, selector: string, message: string,
                              action: ElementAction, waitFault: Option<Exception>, actionFault: Option<Exception>)
    ensures forall s, a :: ElementActed(s, a) in ActionSteps(baseSelector, timeout, selector, message, action, waitFault, actionFault).effects ==>
              waitFault.None? && s == Scoped(baseSelector, selector) && a == action
    ensures waitFault.Some? ==>
              ActionSteps(baseSelector, timeout, selector, message, action, waitFault, actionFault).fault == waitFault
  {
  }

  /** For a class attribute made of space-free class names, `HasClass` is
      membership among them. */
  lemma HasClassIsMembership(classes: seq<string>, className: string)
    requires |classes| >= 1 && forall k :: 0 <= k < |classes| ==> ' ' !in classes[k]
    ensures HasClass(Join(classes, ' '), className) <==> className in classes
  {
    SplitJoin(classes, ' ');
  }

  /** A missing class attribute reads as "", which "contains" the empty
      class name and no other. */
  lemma MissingClassAttribute(className: string)
    ensures HasClass("", className) <==> className == ""
  {
    assert Split("", ' ') == [""];
  }

  /** Splitting at single spaces keeps empty pieces: with two spaces between
      classes, "" is a class. */
  lemma DoubleSpaceMakesEmptyClass(a: string, b: string)
    requires ' ' !in a && ' ' !in b
    ensures HasClass(a + "  " + b, "")
  {
    HasClassIsMembership([a, "", b], "");
    assert [a, "", b][1..] == ["", b] && ["", b][1..] == [b];
    assert Join(["", b], ' ') == [' '] + b;
    assert Join([a, "", b], ' ') == a + [' '] + ([' '] + b);
    assert a + [' '] + ([' '] + b) == a + "  " + b;
  }
}
