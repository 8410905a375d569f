/** `BaseComponent`: an element interaction scoped under the component's
    root selector, with a visibility probe and a visibility wait on the root
    itself. Because the wait scopes its argument under the root again, both
    wait on the root selector written twice. */
module Components {
  import opened Common
  import opened World
  import opened Elements

  class Component {
    const root: string
    /** The interaction base, built with the root as its base selector. */
    const elements: ElementInteraction

    constructor(world: World, root: string, elementTimeout: int)
      ensures this.root == root
      ensures elements.world == world && elements.baseSelector == Some(root) && elements.elementTimeout == elementTimeout
    {
      this.root := root;
      elements := new ElementInteraction(world, Some(root), elementTimeout);
    }

    /** `IsVisibleAsync`: `waitFault` is what the wait throws. */
    method IsVisibleAsync(waitFault: Option<Exception>) returns (r: Result<bool>)
      requires elements.baseSelector == Some(root)
      modifies elements.world
      ensures elements.world.log == old(elements.world.log) + WaitEffects(Some(root), elements.elementTimeout, root, "visible")
      ensures r == Probe(waitFault)
    {
      var thrown := elements.WaitForElementAsync(root, "visible", waitFault);
      r := Probe(thrown);
    }

    /** `WaitUntilVisibleAsync`: the same wait after a debug line, with every
        exception, timeouts included, propagating. */
    method WaitUntilVisibleAsync(waitFault: Option<Exception>) returns (thrown: Option<Exception>)
      requires elements.baseSelector == Some(root)
      modifies elements.world
      ensures elements.world.log == old(elements.world.log) + [Logged(Debug, "Waiting for component to be visible: " + root)]
                + WaitEffects(Some(root), elements.elementTimeout, root, "visible")
      ensures thrown == waitFault
    {
      elements.world.log := elements.world.log + [Logged(Debug, "Waiting for component to be visible: " + root)];
      thrown := elements.WaitForElementAsync(root, "visible", waitFault);
    }
  }

  /** Both component waits target "{root} {root}" in the visible state. */
  lemma ComponentWaitsOnRootTwice(root: string, timeout: int)
    ensures WaitEffects(Some(root), timeout, root, "visible")[1] == SelectorWaited(root + " " + root, Visible, timeout)
  {
  }
}
