/**
 * GameStatusHandler: turns a GAME_STATUS_UPDATE payload (a numeric
 * status) into the matching GAME_STATUS_* event. The switch has no default,
 * so a status outside 0..3 emits nothing.
 */
module GameStatus {
  import opened Wrappers
  import opened EventBus

  /** The GameStatus enum's numbering: WAITING, PREPARING, RUNNING, FINISHING. */
  const Waiting := 0
  const Preparing := 1
  const Running := 2
  const Finishing := 3

  /** The event emitted for a status; exactly the four enum values emit, each its own event. */
  function StatusEvent(status: int): (r: Option<Event>)
    ensures r.Some? <==> Waiting <= status <= Finishing
    ensures status == Waiting ==> r == Some(GameStatusWaiting)
    ensures status == Preparing ==> r == Some(GameStatusPreparing)
    ensures status == Running ==> r == Some(GameStatusRunning)
    ensures status == Finishing ==> r == Some(GameStatusFinishing)
  {
    if status == Waiting then Some(GameStatusWaiting)
    else if status == Preparing then Some(GameStatusPreparing)
    else if status == Running then Some(GameStatusRunning)
    else if status == Finishing then Some(GameStatusFinishing)
    else None
  }

  /** Distinct statuses never emit the same event. */
  lemma StatusEventInjective(s1: int, s2: int)
    requires StatusEvent(s1).Some? && StatusEvent(s1) == StatusEvent(s2)
    ensures s1 == s2
  {
  }

  const Subscription := Reg(GameStatusHandlerOwner, GameStatusUpdate, Handler.OnGameStatusUpdate, Normal)

  class GameStatusHandler {
    const bus: Bus

    constructor (bus: Bus)
      ensures this.bus == bus
    {
      this.bus := bus;
    }

    method Enable()
      modifies bus
      ensures bus.regs == old(bus.regs) + multiset{Subscription}
      ensures bus.emitted == old(bus.emitted)
    {
      bus.AddListener(Reg(GameStatusHandlerOwner, GameStatusUpdate, Handler.OnGameStatusUpdate, Normal));
    }

    method Disable()
      modifies bus
      ensures bus.regs == old(bus.regs) - multiset{Subscription}
      ensures bus.emitted == old(bus.emitted)
    {
      bus.RemoveListener(Reg(GameStatusHandlerOwner, GameStatusUpdate, Handler.OnGameStatusUpdate, Normal));
    }

    /** Emits at most one event: the status's, if it is one of the four. */
    method OnGameStatusUpdate(status: int)
      modifies bus
      ensures bus.regs == old(bus.regs)
      ensures bus.emitted == old(bus.emitted) +
        match StatusEvent(status)
        case Some(e) => [Emission(e, NoPayload, old(bus.Subscribers(e)))]
        case None => []
    {
      if status == Waiting {
        bus.CallEvent(GameStatusWaiting, NoPayload);
      } else if status == Preparing {
        bus.CallEvent(GameStatusPreparing, NoPayload);
      } else if status == Running {
        bus.CallEvent(GameStatusRunning, NoPayload);
      } else if status == Finishing {
        bus.CallEvent(GameStatusFinishing, NoPayload);
      }
    }
  }
}
