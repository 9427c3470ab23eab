/**
 * The singleplayer game menu, in its TypeScript form: a click on one of its
 * three buttons emits that button's request. Enabling registers the click
 * listener and emits nothing.
 */
module SpGameMenu {
  import opened Wrappers
  import opened EventBus

  /** What a DOM click hit. */
  datatype MenuTarget = CancelButton | SaveButton | ReturnButton | OtherTarget

  /** handleClick: cancel, save and return each emit their own request; anything else emits nothing. */
  function ClickEvent(t: MenuTarget): (r: Option<Event>)
    ensures r == Some(GameMenuCloseRequest) <==> t == CancelButton
    ensures r == Some(SpGameMenuSaveGameRequest) <==> t == SaveButton
    ensures r == Some(SpGameMenuReturnToMainRequest) <==> t == ReturnButton
    ensures r.None? <==> t == OtherTarget
  {
    match t
    case CancelButton => Some(GameMenuCloseRequest)
    case SaveButton => Some(SpGameMenuSaveGameRequest)
    case ReturnButton => Some(SpGameMenuReturnToMainRequest)
    case OtherTarget => None
  }

  const Subscription := Reg(SpGameMenuOwner, DomClick, Handler.HandleClick, Normal)

  class SingleplayerGameMenu {
    const bus: Bus

    constructor (bus: Bus)
      ensures this.bus == bus
    {
      this.bus := bus;
    }

    method Enable()
      modifies bus
      ensures bus.regs == old(bus.regs) + multiset{Subscription}
      ensures bus.emitted == old(bus.emitted)
    {
      bus.AddListener(Reg(SpGameMenuOwner, DomClick, Handler.HandleClick, Normal));
    }

    method Disable()
      modifies bus
      ensures bus.regs == old(bus.regs) - multiset{Subscription}
      ensures bus.emitted == old(bus.emitted)
    {
      bus.RemoveListener(Reg(SpGameMenuOwner, DomClick, Handler.HandleClick, Normal));
    }

    method HandleClick(t: MenuTarget)
      modifies bus
      ensures bus.regs == old(bus.regs)
      ensures bus.emitted == old(bus.emitted) +
        match ClickEvent(t)
        case Some(e) => [Emission(e, NoPayload, old(bus.Subscribers(e)))]
        case None => []
    {
      if t == CancelButton {
        bus.CallEvent(GameMenuCloseRequest, NoPayload);
      } else if t == SaveButton {
        bus.CallEvent(SpGameMenuSaveGameRequest, NoPayload);
      } else if t == ReturnButton {
        bus.CallEvent(SpGameMenuReturnToMainRequest, NoPayload);
      }
    }
  }
}

/**
 * The singleplayer game menu, in its JavaScript form: the same click map,
 * but enabling first emits GAMEMENU_OPEN (the signal that suspends the
 * creation tools and the camera controls) and then registers the click
 * listener. Disabling emits no close event.
 */
module SpGameMenuJs {
  import opened EventBus
  import opened SpGameMenu

  class SingleplayerGameMenu {
    const bus: Bus

    constructor (bus: Bus)
      ensures this.bus == bus
    {
      this.bus := bus;
    }

    method Enable()
      modifies bus
      ensures bus.emitted == old(bus.emitted) + [Emission(GameMenuOpen, NoPayload, old(bus.Subscribers(GameMenuOpen)))]
      ensures bus.regs == old(bus.regs) + multiset{Subscription}
    {
      bus.CallEvent(GameMenuOpen, NoPayload);
      bus.AddListener(Reg(SpGameMenuOwner, DomClick, Handler.HandleClick, Normal));
    }

    method Disable()
      modifies bus
      ensures bus.regs == old(bus.regs) - multiset{Subscription}
      ensures bus.emitted == old(bus.emitted)
    {
      bus.RemoveListener(Reg(SpGameMenuOwner, DomClick, Handler.HandleClick, Normal));
    }

    method HandleClick(t: MenuTarget)
      modifies bus
      ensures bus.regs == old(bus.regs)
      ensures bus.emitted == old(bus.emitted) +
        match ClickEvent(t)
        case Some(e) => [Emission(e, NoPayload, old(bus.Subscribers(e)))]
        case None => []
    {
      if t == CancelButton {
        bus.CallEvent(GameMenuCloseRequest, NoPayload);
      } else if t == SaveButton {
        bus.CallEvent(SpGameMenuSaveGameRequest, NoPayload);
      } else if t == ReturnButton {
        bus.CallEvent(SpGameMenuReturnToMainRequest, NoPayload);
      }
    }
  }
}
