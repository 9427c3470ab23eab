/**
 * ArenaHandler: attaches the singleplayer or the multiplayer arena (the
 * scene plus that mode's GUI, camera and, in singleplayer, the creation
 * tools) when a menu asks for it, and opens and closes the game menu on
 * Escape and on window blur while an arena is attached.
 */
module Arena {
  import opened EventBus
  import opened Component

  /** The children a singleplayer arena adds besides the scene. */
  const SpChildren: set<Child> := {SingleplayerGui, CreationToolHandlerChild, SingleplayerCamera}
  /** The children a multiplayer arena adds besides the scene. */
  const MpChildren: set<Child> := {MultiplayerGui, MultiplayerCamera}

  /** The game menu of the current arena kind. */
  function MenuChild(singleplayer: bool): (c: Child)
    ensures c == SingleplayerMenu || c == MultiplayerMenu
    ensures singleplayer <==> c == SingleplayerMenu
  {
    if singleplayer then SingleplayerMenu else MultiplayerMenu
  }

  /** The handler's observable state. */
  datatype ArenaState = ArenaState(isSingleplayer: bool, gameMenuEnabled: bool, children: set<Child>)

  /** What can happen to the handler: one of its listeners fires. */
  datatype Op =
    | AttachSp | DetachSp | AttachMp | DetachMp
    | KeyDown(code: string)
    | Blur
    | CloseRequest

  function OpenMenu(s: ArenaState): ArenaState
  {
    ArenaState(s.isSingleplayer, true, s.children + {MenuChild(s.isSingleplayer)})
  }

  function CloseMenu(s: ArenaState): ArenaState
  {
    ArenaState(s.isSingleplayer, false, s.children - {MenuChild(s.isSingleplayer)})
  }

  /** detachArena: drop the scene and, if the menu is open, close it. */
  function DetachScene(s: ArenaState): ArenaState
  {
    var t := ArenaState(s.isSingleplayer, s.gameMenuEnabled, s.children - {ArenaScene});
    if t.gameMenuEnabled then CloseMenu(t) else t
  }

  /**
   * The state after one operation. Escape with the menu open stands for the
   * close request it emits, delivered to the handler's own close listener.
   */
  function Step(s: ArenaState, op: Op): ArenaState
  {
    match op
    case AttachSp => ArenaState(true, s.gameMenuEnabled, s.children + {ArenaScene} + SpChildren)
    case DetachSp =>
      var t := DetachScene(s);
      ArenaState(t.isSingleplayer, t.gameMenuEnabled, t.children - SpChildren)
    case AttachMp => ArenaState(false, s.gameMenuEnabled, s.children + {ArenaScene} + MpChildren)
    case DetachMp =>
      var t := DetachScene(s);
      ArenaState(t.isSingleplayer, t.gameMenuEnabled, t.children - MpChildren)
    case KeyDown(code) =>
      if code != "Escape" then s
      else if s.gameMenuEnabled then CloseMenu(s)
      else OpenMenu(s)
    case Blur => if s.gameMenuEnabled then s else OpenMenu(s)
    case CloseRequest => CloseMenu(s)
  }

  /**
   * The menu flag tells whether the current kind's menu is attached, the
   * other kind's menu is never attached, and the menu is open only while
   * the scene is.
   */
  ghost predicate MenuConsistent(s: ArenaState)
  {
    && (s.gameMenuEnabled <==> MenuChild(s.isSingleplayer) in s.children)
    && MenuChild(!s.isSingleplayer) !in s.children
    && (s.gameMenuEnabled ==> ArenaScene in s.children)
  }

  /**
   * When an operation can reach the handler: an arena is attached only from
   * a menu, i.e. while none is, and the key, blur and close listeners are
   * registered only while the scene is attached.
   */
  ghost predicate Reachable(s: ArenaState, op: Op)
  {
    match op
    case AttachSp => ArenaScene !in s.children
    case AttachMp => ArenaScene !in s.children
    case KeyDown(_) => ArenaScene in s.children
    case Blur => ArenaScene in s.children
    case CloseRequest => ArenaScene in s.children
    case _ => true
  }

  lemma {:induction false} StepKeepsMenuConsistent(s: ArenaState, op: Op)
    requires MenuConsistent(s) && Reachable(s, op)
    ensures MenuConsistent(Step(s, op))
  {
    match op
    case AttachSp =>
      assert !s.gameMenuEnabled;
      assert SingleplayerMenu !in s.children && MultiplayerMenu !in s.children;
    case AttachMp =>
      assert !s.gameMenuEnabled;
      assert SingleplayerMenu !in s.children && MultiplayerMenu !in s.children;
    case _ =>
  }

  /** Both detach operations leave the menu closed and the scene and the menus detached. */
  lemma DetachClosesMenu(s: ArenaState, op: Op)
    requires MenuConsistent(s) && (op == DetachSp || op == DetachMp)
    ensures !Step(s, op).gameMenuEnabled
    ensures ArenaScene !in Step(s, op).children
    ensures SingleplayerMenu !in Step(s, op).children && MultiplayerMenu !in Step(s, op).children
  {
  }

  /** Attaching an arena and detaching it again restores the children from before. */
  lemma AttachThenDetach(s: ArenaState, sp: bool)
    requires MenuConsistent(s) && ArenaScene !in s.children
    requires s.children * (SpChildren + MpChildren) == {}
    ensures sp ==> Step(Step(s, AttachSp), DetachSp).children == s.children
    ensures !sp ==> Step(Step(s, AttachMp), DetachMp).children == s.children
  {
    var base := s.children;
    assert SingleplayerMenu !in base && MultiplayerMenu !in base;
    if sp {
      assert Step(Step(s, AttachSp), DetachSp).children == base by {
        assert base + {ArenaScene} + SpChildren - {ArenaScene} - SpChildren == base;
      }
    } else {
      assert Step(Step(s, AttachMp), DetachMp).children == base by {
        assert base + {ArenaScene} + MpChildren - {ArenaScene} - MpChildren == base;
      }
    }
  }

  /** Escape pressed twice opens the menu and closes it again, changing nothing. */
  lemma EscapeTwiceRestores(s: ArenaState)
    requires MenuConsistent(s) && !s.gameMenuEnabled
    ensures Step(s, KeyDown("Escape")).gameMenuEnabled
    ensures Step(Step(s, KeyDown("Escape")), KeyDown("Escape")) == s
  {
    assert MenuChild(s.isSingleplayer) !in s.children;
    assert s.children + {MenuChild(s.isSingleplayer)} - {MenuChild(s.isSingleplayer)} == s.children;
  }

  /** Blur only ever opens the menu: afterwards it is open, and a blur while it is open changes nothing. */
  lemma BlurOpensMenu(s: ArenaState)
    ensures Step(s, Blur).gameMenuEnabled
    ensures s.gameMenuEnabled ==> Step(s, Blur) == s
  {
  }

  /** A run of operations from a state, each reaching the handler. */
  function Run(s: ArenaState, ops: seq<Op>): ArenaState
    decreases |ops|
  {
    if ops == [] then s else Run(Step(s, ops[0]), ops[1..])
  }

  ghost predicate AllReachable(s: ArenaState, ops: seq<Op>)
    decreases |ops|
  {
    ops == [] || (Reachable(s, ops[0]) && AllReachable(Step(s, ops[0]), ops[1..]))
  }

  /** Every sequence of operations that can reach the handler keeps the menu consistent. */
  lemma {:induction false} RunKeepsMenuConsistent(s: ArenaState, ops: seq<Op>)
    requires MenuConsistent(s) && AllReachable(s, ops)
    ensures MenuConsistent(Run(s, ops))
    decreases |ops|
  {
    if ops != [] {
      StepKeepsMenuConsistent(s, ops[0]);
      RunKeepsMenuConsistent(Step(s, ops[0]), ops[1..]);
    }
  }

  /** Listeners registered by enable (the two-argument form, without an owner). */
  function Subscriptions(): multiset<Reg>
  {
    multiset{
      Reg(NoOwner, CreateWorldMenuCreateOptClick, Handler.AttachSingleplayerArena, Normal),
      Reg(NoOwner, LoadWorldMenuLoadOptClick, Handler.AttachSingleplayerArena, Normal),
      Reg(NoOwner, SpGameMenuReturnToMainRequest, Handler.DetachSingleplayerArena, Normal),
      Reg(NoOwner, MpMenuConnectOptClick, Handler.AttachMultiplayerArena, Normal),
      Reg(NoOwner, ConnectionScreenDisconnect, Handler.DetachMultiplayerArena, Normal),
      Reg(NoOwner, MpGameMenuDisconnect, Handler.DetachMultiplayerArena, Normal)}
  }

  const CloseListener := Reg(NoOwner, GameMenuCloseRequest, Handler.CloseGameMenu, Normal)

  /** Listeners registered while a scene is attached. */
  function ArenaSubscriptions(): multiset<Reg>
  {
    multiset{
      Reg(NoOwner, DomKeydown, Handler.OnKeyDown, Normal),
      CloseListener,
      Reg(NoOwner, DomBlur, Handler.OnBlur, Normal)}
  }

  /**
   * Reachability is needed: an attach that arrives while a multiplayer arena
   * with an open menu is attached flags the arena singleplayer while the
   * multiplayer menu stays attached.
   */
  lemma AttachOverOpenMenuBreaksConsistency()
    ensures var s := ArenaState(false, true, {ArenaScene, MultiplayerMenu} + MpChildren);
            MenuConsistent(s) && !Reachable(s, AttachSp) && !MenuConsistent(Step(s, AttachSp))
  {
  }

  /** Both world menus route to the singleplayer arena, the return request detaches it, and both disconnects detach the multiplayer arena. */
  lemma SubscriptionsRoute()
    ensures forall r :: r in Subscriptions() && r.event in {CreateWorldMenuCreateOptClick, LoadWorldMenuLoadOptClick} ==> r.handler == Handler.AttachSingleplayerArena
    ensures forall r :: r in Subscriptions() && r.event in {ConnectionScreenDisconnect, MpGameMenuDisconnect} ==> r.handler == Handler.DetachMultiplayerArena
    ensures forall r :: r in Subscriptions() ==> r.owner == NoOwner && Subscriptions()[r] == 1
  {
  }

  class ArenaHandler {
    const bus: Bus
    const node: Node
    var isSingleplayer: bool
    var gameMenuEnabled: bool

    function State(): ArenaState
      reads this, node
    {
      ArenaState(isSingleplayer, gameMenuEnabled, node.children)
    }

    constructor (bus: Bus)
      ensures this.bus == bus && fresh(node)
      ensures State() == ArenaState(false, false, {})
    {
      this.bus := bus;
      node := new Node();
      isSingleplayer := false;
      gameMenuEnabled := false;
    }

    method Enable()
      modifies bus
      ensures bus.regs == old(bus.regs) + Subscriptions()
      ensures bus.emitted == old(bus.emitted)
    {
      bus.AddListener(Reg(NoOwner, CreateWorldMenuCreateOptClick, Handler.AttachSingleplayerArena, Normal));
      bus.AddListener(Reg(NoOwner, LoadWorldMenuLoadOptClick, Handler.AttachSingleplayerArena, Normal));
      bus.AddListener(Reg(NoOwner, SpGameMenuReturnToMainRequest, Handler.DetachSingleplayerArena, Normal));
      bus.AddListener(Reg(NoOwner, MpMenuConnectOptClick, Handler.AttachMultiplayerArena, Normal));
      bus.AddListener(Reg(NoOwner, ConnectionScreenDisconnect, Handler.DetachMultiplayerArena, Normal));
      bus.AddListener(Reg(NoOwner, MpGameMenuDisconnect, Handler.DetachMultiplayerArena, Normal));
    }

    method Disable()
      modifies bus
      ensures bus.regs == old(bus.regs) - Subscriptions()
      ensures bus.emitted == old(bus.emitted)
    {
      ghost var before := bus.regs;
      var a := Reg(NoOwner, CreateWorldMenuCreateOptClick, Handler.AttachSingleplayerArena, Normal);
      var b := Reg(NoOwner, LoadWorldMenuLoadOptClick, Handler.AttachSingleplayerArena, Normal);
      var c := Reg(NoOwner, SpGameMenuReturnToMainRequest, Handler.DetachSingleplayerArena, Normal);
      var d := Reg(NoOwner, MpMenuConnectOptClick, Handler.AttachMultiplayerArena, Normal);
      var e := Reg(NoOwner, ConnectionScreenDisconnect, Handler.DetachMultiplayerArena, Normal);
      var f := Reg(NoOwner, MpGameMenuDisconnect, Handler.DetachMultiplayerArena, Normal);
      bus.RemoveListener(a);
      bus.RemoveListener(b);
      bus.RemoveListener(c);
      bus.RemoveListener(d);
      bus.RemoveListener(e);
      bus.RemoveListener(f);
      Removed6(before, a, b, c, d, e, f);
    }

    method OpenGameMenu()
      modifies this`gameMenuEnabled, node
      ensures State() == OpenMenu(old(State()))
    {
      if isSingleplayer {
        node.AttachChild(SingleplayerMenu);
      } else {
        node.AttachChild(MultiplayerMenu);
      }
      gameMenuEnabled := true;
    }

    method CloseGameMenu()
      modifies this`gameMenuEnabled, node
      ensures State() == CloseMenu(old(State()))
    {
      if isSingleplayer {
        node.DetachChild(SingleplayerMenu);
      } else {
        node.DetachChild(MultiplayerMenu);
      }
      gameMenuEnabled := false;
    }

    method AttachArena()
      modifies bus, node
      ensures bus.regs == old(bus.regs) + ArenaSubscriptions()
      ensures bus.emitted == old(bus.emitted)
      ensures node.children == old(node.children) + {ArenaScene}
    {
      bus.AddListener(Reg(NoOwner, DomKeydown, Handler.OnKeyDown, Normal));
      bus.AddListener(Reg(NoOwner, GameMenuCloseRequest, Handler.CloseGameMenu, Normal));
      bus.AddListener(Reg(NoOwner, DomBlur, Handler.OnBlur, Normal));
      node.AttachChild(ArenaScene);
    }

    method DetachArena()
      modifies this`gameMenuEnabled, bus, node
      ensures bus.regs == old(bus.regs) - ArenaSubscriptions()
      ensures bus.emitted == old(bus.emitted)
      ensures State() == DetachScene(old(State()))
    {
      ghost var before := bus.regs;
      ghost var s0 := State();
      var a := Reg(NoOwner, DomKeydown, Handler.OnKeyDown, Normal);
      var b := Reg(NoOwner, GameMenuCloseRequest, Handler.CloseGameMenu, Normal);
      var c := Reg(NoOwner, DomBlur, Handler.OnBlur, Normal);
      bus.RemoveListener(a);
      bus.RemoveListener(b);
      bus.RemoveListener(c);
      Removed3(before, a, b, c);
      assert bus.regs == before - ArenaSubscriptions();
      node.DetachChild(ArenaScene);
      assert State() == ArenaState(s0.isSingleplayer, s0.gameMenuEnabled, s0.children - {ArenaScene});
      if gameMenuEnabled {
        CloseGameMenu();
      }
    }

    /** The world data is passed on unchanged as the scene update's payload. */
    method AttachSingleplayerArena(world: nat)
      modifies this`isSingleplayer, bus, node
      ensures bus.regs == old(bus.regs) + ArenaSubscriptions()
      ensures bus.emitted == old(bus.emitted) + [Emission(ArenaSceneUpdate, WorldPayload(world), bus.Subscribers(ArenaSceneUpdate))]
      ensures State() == Step(old(State()), AttachSp)
    {
      ghost var s0 := State();
      AttachArena();
      AttachSingleplayerChildren();
      assert node.children == s0.children + {ArenaScene} + SpChildren;
      ghost var e0, subs := bus.emitted, bus.Subscribers(ArenaSceneUpdate);
      bus.CallEvent(ArenaSceneUpdate, WorldPayload(world));
      assert bus.Subscribers(ArenaSceneUpdate) == subs;
      assert bus.emitted == e0 + [Emission(ArenaSceneUpdate, WorldPayload(world), subs)];
      isSingleplayer := true;
    }

    method DetachSingleplayerArena()
      modifies this`gameMenuEnabled, bus, node
      ensures bus.regs == old(bus.regs) - ArenaSubscriptions()
      ensures bus.emitted == old(bus.emitted)
      ensures State() == Step(old(State()), DetachSp)
    {
      ghost var t := DetachScene(State());
      DetachArena();
      assert State() == t;
      DetachSingleplayerChildren();
      assert node.children == t.children - SpChildren;
    }

    method AttachMultiplayerArena()
      modifies this`isSingleplayer, bus, node
      ensures bus.regs == old(bus.regs) + ArenaSubscriptions()
      ensures bus.emitted == old(bus.emitted)
      ensures State() == Step(old(State()), AttachMp)
    {
      ghost var s0 := State();
      AttachArena();
      AttachMultiplayerChildren();
      assert node.children == s0.children + {ArenaScene} + MpChildren;
      isSingleplayer := false;
    }

    method DetachMultiplayerArena()
      modifies this`gameMenuEnabled, bus, node
      ensures bus.regs == old(bus.regs) - ArenaSubscriptions()
      ensures bus.emitted == old(bus.emitted)
      ensures State() == Step(old(State()), DetachMp)
    {
      ghost var t := DetachScene(State());
      DetachArena();
      assert State() == t;
      DetachMultiplayerChildren();
      assert node.children == t.children - MpChildren;
    }


    /** The singleplayer GUI, creation-tool handler and camera, attached in that order. */
    method AttachSingleplayerChildren()
      modifies node
      ensures node.children == old(node.children) + SpChildren
    {
      node.AttachChild(SingleplayerGui);
      node.AttachChild(CreationToolHandlerChild);
      node.AttachChild(SingleplayerCamera);
    }

    method DetachSingleplayerChildren()
      modifies node
      ensures node.children == old(node.children) - SpChildren
    {
      node.DetachChild(SingleplayerGui);
      node.DetachChild(CreationToolHandlerChild);
      node.DetachChild(SingleplayerCamera);
    }

    /** The multiplayer GUI and camera, attached in that order. */
    method AttachMultiplayerChildren()
      modifies node
      ensures node.children == old(node.children) + MpChildren
    {
      node.AttachChild(MultiplayerGui);
      node.AttachChild(MultiplayerCamera);
    }

    method DetachMultiplayerChildren()
      modifies node
      ensures node.children == old(node.children) - MpChildren
    {
      node.DetachChild(MultiplayerGui);
      node.DetachChild(MultiplayerCamera);
    }

    /**
     * Escape with the menu open emits the close request, which reaches the
     * handler's own close listener when that is registered; Escape with the
     * menu closed opens it; any other key does nothing.
     */
    method OnKeyDown(code: string)
      modifies this`gameMenuEnabled, bus, node
      ensures bus.regs == old(bus.regs)
      ensures bus.emitted == old(bus.emitted) +
        (if code == "Escape" && old(gameMenuEnabled)
         then [Emission(GameMenuCloseRequest, NoPayload, old(bus.Subscribers(GameMenuCloseRequest)))]
         else [])
      ensures code == "Escape" && old(gameMenuEnabled) && CloseListener !in old(bus.regs) ==> State() == old(State())
      ensures !(code == "Escape" && old(gameMenuEnabled) && CloseListener !in old(bus.regs)) ==> State() == Step(old(State()), KeyDown(code))
    {
      if code == "Escape" {
        if gameMenuEnabled {
          bus.CallEvent(GameMenuCloseRequest, NoPayload);
          if CloseListener in bus.regs {
            CloseGameMenu();
          }
        } else {
          OpenGameMenu();
        }
      }
    }

    method OnBlur()
      modifies this`gameMenuEnabled, node
      ensures State() == Step(old(State()), Blur)
    {
      if !gameMenuEnabled {
        OpenGameMenu();
      }
    }
  }

  /** enable followed by disable leaves the bus as it was. */
  method EnableThenDisable(h: ArenaHandler)
    modifies h.bus
    ensures h.bus.regs == old(h.bus.regs) && h.bus.emitted == old(h.bus.emitted)
  {
    h.Enable();
    h.Disable();
  }
}
