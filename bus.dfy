/**
 * The global listener bus (EventHandler) and the DOM listener registry
 * (DomEventHandler), both unseen: each is a registry of registrations.
 * callEvent invokes the handlers currently registered for its event; the
 * model logs every call together with the set of registrations it reached.
 * Priority ordering beyond the Level tag is not modelled.
 */
module EventBus {
  import opened Settings

  /** Event kinds used by the modelled components. */
  datatype Event =
    | GameMenuOpen | GameMenuClose | GameMenuCloseRequest
    | ArenaCreateModeToggleCamera | ArenaCreateModeToggleBlock
    | ArenaCreateModeToggleGameSpawn | ArenaCreateModeToggleInitialSpawn
    | DomClick | DomKeydown | DomMousedown | DomResize | DomBlur
    | CameraControlsUpdate | CameraPan | ArenaInitialSpawnAssignment | ArenaSceneUpdate
    | CreateWorldMenuCreateOptClick | LoadWorldMenuLoadOptClick
    | SpGameMenuReturnToMainRequest | SpGameMenuSaveGameRequest
    | MpMenuConnectOptClick | ConnectionScreenDisconnect | MpGameMenuDisconnect
    | OptMenuReturnOptClick | OptionsUpdate
    | GameStatusUpdate | GameStatusWaiting | GameStatusPreparing | GameStatusRunning | GameStatusFinishing

  /** Listener priority; NORMAL is the default of addListener. */
  datatype Level = High | Normal | Low

  /** Identity of the component a registration belongs to (NoOwner: the two-argument form). */
  datatype Owner =
    | NoOwner | CreationToolHandlerOwner | ModeToggleOwner | CameraOwner
    | MultiplayerCameraOwner | OptionsMenuOwner | SpGameMenuOwner | GameStatusHandlerOwner

  /** The callbacks registered by the modelled components; a listenForInput closure is told apart by its session. */
  datatype Handler =
    | OnGameMenuOpen | OnGameMenuClose
    | OnToggleToCamera | OnToggleToBlock | OnToggleToGameSpawn | OnToggleToInitialSpawn
    | OnToggleCamera | OnToggleBlock | OnToggleGameSpawn | OnToggleInitialSpawn
    | OnClick | OnKeyDown | OnResize | OnControlsUpdate | OnPan | OnArenaSceneUpdate
    | AttachSingleplayerArena | DetachSingleplayerArena | AttachMultiplayerArena | DetachMultiplayerArena
    | CloseGameMenu | OnBlur | HandleClick
    | HandleBackwardClick | HandleForwardClick | HandleLeftClick | HandleRightClick
    | HandleReturnClick | HandleShootClick | HandleVolumeChange | HandleMouseChange
    | KeyListener(session: nat) | MouseListener(session: nat)
    | OnGameStatusUpdate

  datatype Reg = Reg(owner: Owner, event: Event, handler: Handler, level: Level)

  /** Event payloads the model tracks; other payloads are opaque. */
  datatype Payload = NoPayload | OptionsPayload(options: Options) | WorldPayload(world: nat)

  /** One callEvent: the event, its payload and the registrations it invoked. */
  datatype Emission = Emission(event: Event, payload: Payload, invoked: set<Reg>)

  class Bus {
    var regs: multiset<Reg>
    var emitted: seq<Emission>

    constructor ()
      ensures regs == multiset{} && emitted == []
    {
      regs := multiset{};
      emitted := [];
    }

    /** The registrations callEvent(e) would invoke now. */
    function Subscribers(e: Event): (s: set<Reg>)
      reads this`regs
      ensures forall r :: r in s <==> r in regs && r.event == e
    {
      set r | r in regs && r.event == e
    }

    method AddListener(r: Reg)
      modifies this
      ensures regs == old(regs) + multiset{r}
      ensures emitted == old(emitted)
    {
      regs := regs + multiset{r};
    }

    /** Removal must match the level used at registration; removing an absent registration is benign. */
    method RemoveListener(r: Reg)
      modifies this
      ensures regs == old(regs) - multiset{r}
      ensures emitted == old(emitted)
    {
      regs := regs - multiset{r};
    }

    method CallEvent(e: Event, p: Payload)
      modifies this
      ensures regs == old(regs)
      ensures emitted == old(emitted) + [Emission(e, p, old(Subscribers(e)))]
    {
      emitted := emitted + [Emission(e, p, Subscribers(e))];
    }
  }

  /** A DOM listener: owner, element selector, DOM event name, callback. */
  datatype DomReg = DomReg(owner: Owner, element: string, kind: string, handler: Handler)

  class DomEvents {
    var regs: multiset<DomReg>

    constructor ()
      ensures regs == multiset{}
    {
      regs := multiset{};
    }

    method AddListener(r: DomReg)
      modifies this
      ensures regs == old(regs) + multiset{r}
    {
      regs := regs + multiset{r};
    }

    method RemoveListener(r: DomReg)
      modifies this
      ensures regs == old(regs) - multiset{r}
    {
      regs := regs - multiset{r};
    }
  }

  /** Removing A and then B removes their sum. */
  lemma MinusMinus(regs: multiset<Reg>, A: multiset<Reg>, B: multiset<Reg>)
    ensures (regs - A) - B == regs - (A + B)
  {
    assert forall x :: ((regs - A) - B)[x] == (regs - (A + B))[x];
  }

  /** Removing registrations one call at a time, as the disable methods do, removes all of them. */
  lemma Removed2(regs: multiset<Reg>, a: Reg, b: Reg)
    ensures regs - multiset{a} - multiset{b} == regs - multiset{a, b}
  {
    MinusMinus(regs, multiset{a}, multiset{b});
    assert multiset{a} + multiset{b} == multiset{a, b};
  }

  lemma Removed3(regs: multiset<Reg>, a: Reg, b: Reg, c: Reg)
    ensures regs - multiset{a} - multiset{b} - multiset{c} == regs - multiset{a, b, c}
  {
    Removed2(regs, a, b);
    MinusMinus(regs, multiset{a, b}, multiset{c});
    assert multiset{a, b} + multiset{c} == multiset{a, b, c};
  }

  lemma Removed4(regs: multiset<Reg>, a: Reg, b: Reg, c: Reg, d: Reg)
    ensures regs - multiset{a} - multiset{b} - multiset{c} - multiset{d} == regs - multiset{a, b, c, d}
  {
    Removed3(regs, a, b, c);
    MinusMinus(regs, multiset{a, b, c}, multiset{d});
    assert multiset{a, b, c} + multiset{d} == multiset{a, b, c, d};
  }

  lemma Removed5(regs: multiset<Reg>, a: Reg, b: Reg, c: Reg, d: Reg, e: Reg)
    ensures regs - multiset{a} - multiset{b} - multiset{c} - multiset{d} - multiset{e}
            == regs - multiset{a, b, c, d, e}
  {
    Removed4(regs, a, b, c, d);
    MinusMinus(regs, multiset{a, b, c, d}, multiset{e});
    assert multiset{a, b, c, d} + multiset{e} == multiset{a, b, c, d, e};
  }

  lemma Removed6(regs: multiset<Reg>, a: Reg, b: Reg, c: Reg, d: Reg, e: Reg, f: Reg)
    ensures regs - multiset{a} - multiset{b} - multiset{c} - multiset{d} - multiset{e} - multiset{f}
            == regs - multiset{a, b, c, d, e, f}
  {
    Removed5(regs, a, b, c, d, e);
    MinusMinus(regs, multiset{a, b, c, d, e}, multiset{f});
    assert multiset{a, b, c, d, e} + multiset{f} == multiset{a, b, c, d, e, f};
  }

  /** The DOM registry's counterpart of Removed2. */
  lemma DomRemoved2(regs: multiset<DomReg>, a: DomReg, b: DomReg)
    ensures regs - multiset{a} - multiset{b} == regs - multiset{a, b}
  {
    assert forall x :: (regs - multiset{a} - multiset{b})[x] == (regs - multiset{a, b})[x];
  }
}
