/**
 * CreationToolHandler: switches between the block, game-spawn and
 * initial-spawn creation tools. The mode is changed only by the four toggle
 * events; the game menu suspends and restores the current tool without
 * touching the mode.
 */
module CreationTools {
  import opened Wrappers
  import opened EventBus
  import opened Component
  import opened CreateMode

  /** The three tool children the handler owns. */
  const Tools: set<Child> := {BlockTool, GameSpawnTool, InitialSpawnTool}

  /** The tool mode m selects, as a set of at most one child: none for CAMERA, and distinct modes select distinct tools. */
  function ToolOf(m: Mode): (t: set<Child>)
    ensures t <= Tools && |t| <= 1
    ensures t == {} <==> m == Camera
    ensures m == Block ==> t == {BlockTool}
    ensures m == GameSpawn ==> t == {GameSpawnTool}
    ensures m == InitialSpawn ==> t == {InitialSpawnTool}
  {
    match m
    case Camera => {}
    case Block => {BlockTool}
    case GameSpawn => {GameSpawnTool}
    case InitialSpawn => {InitialSpawnTool}
  }

  /** The handler's observable state: its mode and its attached children. */
  datatype ToolState = ToolState(mode: Mode, children: set<Child>)

  /** Invariant: no tool other than the current mode's is attached. */
  ghost predicate AtMostCurrentTool(s: ToolState)
  {
    s.children * Tools <= ToolOf(s.mode)
  }

  /** The current mode's tool, and only it, is attached (none in CAMERA). */
  ghost predicate CurrentToolAttached(s: ToolState)
  {
    s.children * Tools == ToolOf(s.mode)
  }

  /** removeTool: the children left after detaching the current mode's tool. */
  function RemoveTool(s: ToolState): (c: set<Child>)
    ensures c * Tools == (s.children * Tools) - ToolOf(s.mode)
    ensures c - Tools == s.children - Tools
  {
    s.children - ToolOf(s.mode)
  }

  /** The effect of one bus event on an enabled handler (the handlers it registers, applied). */
  function Step(s: ToolState, e: Event): ToolState
  {
    match ToggleTarget(e)
    case Some(m) => ToolState(m, RemoveTool(s) + ToolOf(m))
    case None =>
      if e == GameMenuOpen then ToolState(s.mode, RemoveTool(s))
      else if e == GameMenuClose then ToolState(s.mode, s.children + ToolOf(s.mode))
      else s
  }

  /** Events only ever change tool children; the mode follows exactly the toggle events; the invariant is kept. */
  lemma StepFrame(s: ToolState, e: Event)
    ensures Step(s, e).children - Tools == s.children - Tools
    ensures Step(s, e).mode == Follow(s.mode, e)
    ensures AtMostCurrentTool(s) ==> AtMostCurrentTool(Step(s, e))
  {
  }

  /** A toggle to m leaves mode m with m's tool attached and the other tools detached (none for CAMERA). */
  lemma ToggleSelectsTool(s: ToolState, m: Mode)
    requires AtMostCurrentTool(s)
    ensures Step(s, ToggleEvent(m)).mode == m
    ensures CurrentToolAttached(Step(s, ToggleEvent(m)))
  {
  }

  /** Toggling to the active mode detaches and reattaches the same tool: the state is unchanged. */
  lemma ToggleToActiveMode(s: ToolState)
    requires CurrentToolAttached(s)
    ensures Step(s, ToggleEvent(s.mode)) == s
  {
    assert ToggleTarget(ToggleEvent(s.mode)) == Some(s.mode);
    var c := RemoveTool(s) + ToolOf(s.mode);
    assert Step(s, ToggleEvent(s.mode)) == ToolState(s.mode, c);
    SameSplitSame(c, s.children);
  }

  /** Two sets of children that agree on the tools and on everything else are equal. */
  lemma SameSplitSame(a: set<Child>, b: set<Child>)
    requires a * Tools == b * Tools && a - Tools == b - Tools
    ensures a == b
  {
    assert a == (a * Tools) + (a - Tools);
    assert b == (b * Tools) + (b - Tools);
  }

  /** The menu detaches every tool without changing the mode, and closing it restores the attached set. */
  lemma MenuSuspendsTool(s: ToolState)
    requires CurrentToolAttached(s)
    ensures Step(s, GameMenuOpen).mode == s.mode
    ensures Step(s, GameMenuOpen).children * Tools == {}
    ensures Step(Step(s, GameMenuOpen), GameMenuClose) == s
  {
    var o := Step(s, GameMenuOpen);
    assert o.children == s.children - ToolOf(s.mode);
    var c := Step(o, GameMenuClose).children;
    assert c == o.children + ToolOf(s.mode);
    SameSplitSame(c, s.children);
  }

  /**
   * A toggle that arrives while the menu is open attaches the new tool at once:
   * the suspension does not hold it back (removeTool then detaches a tool that
   * is not attached, a no-op).
   */
  lemma ToggleDuringMenuAttaches(s: ToolState, m: Mode)
    requires CurrentToolAttached(s)
    ensures CurrentToolAttached(Step(Step(s, GameMenuOpen), ToggleEvent(m)))
    ensures Step(Step(s, GameMenuOpen), ToggleEvent(m)).mode == m
  {
  }

  /**
   * The menu close that ends such a toggle attaches the new mode's tool a
   * second time. The tool is already attached, and attaching is set insertion,
   * so the close changes nothing.
   */
  lemma CloseReattachesToggledTool(s: ToolState, m: Mode)
    requires CurrentToolAttached(s)
    ensures ToolOf(m) <= Step(Step(s, GameMenuOpen), ToggleEvent(m)).children
    ensures Step(Step(Step(s, GameMenuOpen), ToggleEvent(m)), GameMenuClose) == Step(Step(s, GameMenuOpen), ToggleEvent(m))
  {
    ToggleDuringMenuAttaches(s, m);
  }

  /** The state after a sequence of bus events. */
  function Run(s: ToolState, evs: seq<Event>): ToolState
    decreases |evs|
  {
    if evs == [] then s else Run(Step(s, evs[0]), evs[1..])
  }

  /** Over any event sequence: at most one tool, the current mode's, is attached; other children are untouched; the mode is the observers' mode. */
  lemma {:induction false} RunKeepsInvariant(s: ToolState, evs: seq<Event>)
    requires AtMostCurrentTool(s)
    ensures AtMostCurrentTool(Run(s, evs))
    ensures Run(s, evs).children - Tools == s.children - Tools
    ensures Run(s, evs).mode == FollowAll(s.mode, evs)
    decreases |evs|
  {
    if evs != [] {
      StepFrame(s, evs[0]);
      RunKeepsInvariant(Step(s, evs[0]), evs[1..]);
    }
  }

  /** The six (event, handler) registrations enable adds. */
  function Subscriptions(): multiset<Reg>
  {
    multiset{
      Reg(CreationToolHandlerOwner, GameMenuOpen, Handler.OnGameMenuOpen, Normal),
      Reg(CreationToolHandlerOwner, GameMenuClose, Handler.OnGameMenuClose, Normal),
      Reg(CreationToolHandlerOwner, ArenaCreateModeToggleBlock, Handler.OnToggleToBlock, Normal),
      Reg(CreationToolHandlerOwner, ArenaCreateModeToggleCamera, Handler.OnToggleToCamera, Normal),
      Reg(CreationToolHandlerOwner, ArenaCreateModeToggleGameSpawn, Handler.OnToggleToGameSpawn, Normal),
      Reg(CreationToolHandlerOwner, ArenaCreateModeToggleInitialSpawn, Handler.OnToggleToInitialSpawn, Normal)
    }
  }

  /** The handler enable registers for event e, if any. */
  function ListenerFor(e: Event): (h: Option<Handler>)
    ensures h.Some? <==> (e == GameMenuOpen || e == GameMenuClose || ToggleTarget(e).Some?)
    ensures h.Some? ==> Reg(CreationToolHandlerOwner, e, h.value, Normal) in Subscriptions()
  {
    match e
    case GameMenuOpen => Some(Handler.OnGameMenuOpen)
    case GameMenuClose => Some(Handler.OnGameMenuClose)
    case ArenaCreateModeToggleBlock => Some(Handler.OnToggleToBlock)
    case ArenaCreateModeToggleCamera => Some(Handler.OnToggleToCamera)
    case ArenaCreateModeToggleGameSpawn => Some(Handler.OnToggleToGameSpawn)
    case ArenaCreateModeToggleInitialSpawn => Some(Handler.OnToggleToInitialSpawn)
    case _ => None
  }

  class CreationToolHandler {
    const bus: Bus
    const node: Node
    var mode: Mode

    function State(): ToolState
      reads this, node
    {
      ToolState(mode, node.children)
    }

    constructor (bus: Bus)
      ensures this.bus == bus && fresh(node)
      ensures mode == Camera && node.children == {}
    {
      this.bus := bus;
      node := new Node();
      mode := Camera;
    }

    method Enable()
      modifies bus
      ensures bus.regs == old(bus.regs) + Subscriptions()
      ensures bus.emitted == old(bus.emitted)
    {
      bus.AddListener(Reg(CreationToolHandlerOwner, GameMenuOpen, Handler.OnGameMenuOpen, Normal));
      bus.AddListener(Reg(CreationToolHandlerOwner, GameMenuClose, Handler.OnGameMenuClose, Normal));
      bus.AddListener(Reg(CreationToolHandlerOwner, ArenaCreateModeToggleBlock, Handler.OnToggleToBlock, Normal));
      bus.AddListener(Reg(CreationToolHandlerOwner, ArenaCreateModeToggleCamera, Handler.OnToggleToCamera, Normal));
      bus.AddListener(Reg(CreationToolHandlerOwner, ArenaCreateModeToggleGameSpawn, Handler.OnToggleToGameSpawn, Normal));
      bus.AddListener(Reg(CreationToolHandlerOwner, ArenaCreateModeToggleInitialSpawn, Handler.OnToggleToInitialSpawn, Normal));
    }

    method Disable()
      modifies bus
      ensures bus.regs == old(bus.regs) - Subscriptions()
      ensures bus.emitted == old(bus.emitted)
    {
      ghost var before := bus.regs;
      var a := Reg(CreationToolHandlerOwner, GameMenuOpen, Handler.OnGameMenuOpen, Normal);
      var b := Reg(CreationToolHandlerOwner, GameMenuClose, Handler.OnGameMenuClose, Normal);
      var c := Reg(CreationToolHandlerOwner, ArenaCreateModeToggleBlock, Handler.OnToggleToBlock, Normal);
      var d := Reg(CreationToolHandlerOwner, ArenaCreateModeToggleCamera, Handler.OnToggleToCamera, Normal);
      var e := Reg(CreationToolHandlerOwner, ArenaCreateModeToggleGameSpawn, Handler.OnToggleToGameSpawn, Normal);
      var f := Reg(CreationToolHandlerOwner, ArenaCreateModeToggleInitialSpawn, Handler.OnToggleToInitialSpawn, Normal);
      bus.RemoveListener(a);
      bus.RemoveListener(b);
      bus.RemoveListener(c);
      bus.RemoveListener(d);
      bus.RemoveListener(e);
      bus.RemoveListener(f);
      Removed6(before, a, b, c, d, e, f);
    }

    /** Detach the tool the current mode selects; nothing in CAMERA mode. */
    method RemoveTool()
      modifies node
      ensures node.children == old(node.children) - ToolOf(mode)
    {
      match mode
      case Block => node.DetachChild(BlockTool);
      case GameSpawn => node.DetachChild(GameSpawnTool);
      case InitialSpawn => node.DetachChild(InitialSpawnTool);
      case Camera =>
    }

    method OnGameMenuOpen()
      modifies node
      ensures State() == Step(old(State()), GameMenuOpen)
    {
      if mode == Block {
        node.DetachChild(BlockTool);
      } else if mode == GameSpawn {
        node.DetachChild(GameSpawnTool);
      } else if mode == InitialSpawn {
        node.DetachChild(InitialSpawnTool);
      }
    }

    method OnGameMenuClose()
      modifies node
      ensures State() == Step(old(State()), GameMenuClose)
    {
      if mode == Block {
        node.AttachChild(BlockTool);
      } else if mode == GameSpawn {
        node.AttachChild(GameSpawnTool);
      } else if mode == InitialSpawn {
        node.AttachChild(InitialSpawnTool);
      }
    }

    method OnToggleToCamera()
      modifies this, node
      ensures State() == Step(old(State()), ArenaCreateModeToggleCamera)
    {
      RemoveTool();
      mode := Camera;
    }

    method OnToggleToBlock()
      modifies this, node
      ensures State() == Step(old(State()), ArenaCreateModeToggleBlock)
    {
      RemoveTool();
      node.AttachChild(BlockTool);
      mode := Block;
    }

    method OnToggleToGameSpawn()
      modifies this, node
      ensures State() == Step(old(State()), ArenaCreateModeToggleGameSpawn)
    {
      RemoveTool();
      node.AttachChild(GameSpawnTool);
      mode := GameSpawn;
    }

    method OnToggleToInitialSpawn()
      modifies this, node
      ensures State() == Step(old(State()), ArenaCreateModeToggleInitialSpawn)
    {
      RemoveTool();
      node.AttachChild(InitialSpawnTool);
      mode := InitialSpawn;
    }

    /** The bus delivering e: the registered handler for e runs, if this handler's registration is present. */
    method Receive(e: Event)
      modifies this, node
      ensures State() == if ListenerFor(e).Some? && Reg(CreationToolHandlerOwner, e, ListenerFor(e).value, Normal) in bus.regs
                         then Step(old(State()), e) else old(State())
    {
      var h := ListenerFor(e);
      if h.Some? && Reg(CreationToolHandlerOwner, e, h.value, Normal) in bus.regs {
        match e
        case GameMenuOpen => OnGameMenuOpen();
        case GameMenuClose => OnGameMenuClose();
        case ArenaCreateModeToggleBlock => OnToggleToBlock();
        case ArenaCreateModeToggleCamera => OnToggleToCamera();
        case ArenaCreateModeToggleGameSpawn => OnToggleToGameSpawn();
        case ArenaCreateModeToggleInitialSpawn => OnToggleToInitialSpawn();
      }
    }
  }

  /** enable followed by disable leaves the bus as it was. */
  method EnableThenDisable(h: CreationToolHandler)
    modifies h.bus
    ensures h.bus.regs == old(h.bus.regs) && h.bus.emitted == old(h.bus.emitted)
  {
    h.Enable();
    h.Disable();
  }
}
