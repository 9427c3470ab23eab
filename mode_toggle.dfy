/**
 * ArenaCreateModeToggle: the HUD's four mode buttons. The component
 * observes the same toggle events as the creation-tool handler, highlights
 * the button of its mode, and turns clicks and the B and C keys into toggle
 * requests for a mode that is not already current. Each button's class list
 * is one flag: whether it carries "create-world-toggle-enabled".
 */
module ModeToggleHud {
  import opened Wrappers
  import opened EventBus
  import opened CreateMode

  /** What a DOM click hit: one of the four buttons, or anything else. */
  datatype ClickTarget = ToggleButton(mode: Mode) | OtherTarget

  /** onClick: a button requests its mode unless that mode is current; other targets request nothing. */
  function ClickRequest(current: Mode, target: ClickTarget): (r: Option<Event>)
    ensures r.Some? <==> target.ToggleButton? && target.mode != current
    ensures r.Some? ==> r.value == ToggleEvent(target.mode)
  {
    match target
    case ToggleButton(m) => if m != current then Some(ToggleEvent(m)) else None
    case OtherTarget => None
  }

  /** onKeyDown: KeyB requests BLOCK and KeyC requests CAMERA, each unless already current; other keys nothing. */
  function KeyRequest(current: Mode, code: string): (r: Option<Event>)
    ensures r.Some? <==> (code == "KeyB" && current != Block) || (code == "KeyC" && current != Camera)
    ensures r.Some? && code == "KeyB" ==> r.value == ArenaCreateModeToggleBlock
    ensures r.Some? && code == "KeyC" ==> r.value == ArenaCreateModeToggleCamera
  {
    if code == "KeyB" then (if current != Block then Some(ArenaCreateModeToggleBlock) else None)
    else if code == "KeyC" then (if current != Camera then Some(ArenaCreateModeToggleCamera) else None)
    else None
  }

  /** A request, once delivered back over the bus, always changes the mode, and to the mode asked for. */
  lemma RequestChangesMode(current: Mode, target: ClickTarget, code: string)
    ensures ClickRequest(current, target).Some? ==>
              Follow(current, ClickRequest(current, target).value) == target.mode != current
    ensures KeyRequest(current, code).Some? ==>
              Follow(current, KeyRequest(current, code).value) != current
  {
  }

  /** The six (event, handler) registrations enable adds. */
  function Subscriptions(): multiset<Reg>
  {
    multiset{
      Reg(ModeToggleOwner, DomClick, Handler.OnClick, Normal),
      Reg(ModeToggleOwner, ArenaCreateModeToggleBlock, Handler.OnToggleBlock, Normal),
      Reg(ModeToggleOwner, ArenaCreateModeToggleCamera, Handler.OnToggleCamera, Normal),
      Reg(ModeToggleOwner, ArenaCreateModeToggleGameSpawn, Handler.OnToggleGameSpawn, Normal),
      Reg(ModeToggleOwner, ArenaCreateModeToggleInitialSpawn, Handler.OnToggleInitialSpawn, Normal),
      Reg(ModeToggleOwner, DomKeydown, Handler.OnKeyDown, Normal)
    }
  }

  /** The toggle handler enable registers for mode m's event. */
  function ToggleListener(m: Mode): Handler
  {
    match m
    case Camera => Handler.OnToggleCamera
    case Block => Handler.OnToggleBlock
    case GameSpawn => Handler.OnToggleGameSpawn
    case InitialSpawn => Handler.OnToggleInitialSpawn
  }

  lemma ToggleListenerSubscribed(m: Mode)
    ensures Reg(ModeToggleOwner, ToggleEvent(m), ToggleListener(m), Normal) in Subscriptions()
  {
  }

  class ArenaCreateModeToggle {
    const bus: Bus
    var mode: Mode
    var cameraLit: bool
    var blockLit: bool
    var gameSpawnLit: bool
    var initialSpawnLit: bool

    /** Whether mode m's button carries the highlight class. */
    function Lit(m: Mode): bool
      reads this
    {
      match m
      case Camera => cameraLit
      case Block => blockLit
      case GameSpawn => gameSpawnLit
      case InitialSpawn => initialSpawnLit
    }

    /** Exactly one button is highlighted: the current mode's. */
    ghost predicate HighlightsMode()
      reads this
    {
      forall m :: Lit(m) <==> m == mode
    }

    /** The buttons' initial classes come from the markup. */
    constructor (bus: Bus, markupLit: set<Mode>)
      ensures this.bus == bus && mode == Camera
      ensures forall m :: Lit(m) <==> m in markupLit
    {
      this.bus := bus;
      mode := Camera;
      cameraLit := Camera in markupLit;
      blockLit := Block in markupLit;
      gameSpawnLit := GameSpawn in markupLit;
      initialSpawnLit := InitialSpawn in markupLit;
    }

    /** Registers six listeners and refreshes the highlight, whatever toggles happened while disabled. */
    method Enable()
      modifies this, bus
      ensures bus.regs == old(bus.regs) + Subscriptions()
      ensures bus.emitted == old(bus.emitted)
      ensures mode == old(mode) && HighlightsMode()
    {
      AddListeners();
      UpdateHtmlClasses();
    }

    /** The six registrations of enable, in its order. */
    method AddListeners()
      modifies bus
      ensures bus.regs == old(bus.regs) + Subscriptions()
      ensures bus.emitted == old(bus.emitted)
    {
      bus.AddListener(Reg(ModeToggleOwner, DomClick, Handler.OnClick, Normal));
      bus.AddListener(Reg(ModeToggleOwner, ArenaCreateModeToggleBlock, Handler.OnToggleBlock, Normal));
      bus.AddListener(Reg(ModeToggleOwner, ArenaCreateModeToggleCamera, Handler.OnToggleCamera, Normal));
      bus.AddListener(Reg(ModeToggleOwner, ArenaCreateModeToggleGameSpawn, Handler.OnToggleGameSpawn, Normal));
      bus.AddListener(Reg(ModeToggleOwner, ArenaCreateModeToggleInitialSpawn, Handler.OnToggleInitialSpawn, Normal));
      bus.AddListener(Reg(ModeToggleOwner, DomKeydown, Handler.OnKeyDown, Normal));
    }

    method Disable()
      modifies bus
      ensures bus.regs == old(bus.regs) - Subscriptions()
      ensures bus.emitted == old(bus.emitted)
    {
      ghost var before := bus.regs;
      var a := Reg(ModeToggleOwner, DomClick, Handler.OnClick, Normal);
      var b := Reg(ModeToggleOwner, ArenaCreateModeToggleBlock, Handler.OnToggleBlock, Normal);
      var c := Reg(ModeToggleOwner, ArenaCreateModeToggleCamera, Handler.OnToggleCamera, Normal);
      var d := Reg(ModeToggleOwner, ArenaCreateModeToggleGameSpawn, Handler.OnToggleGameSpawn, Normal);
      var e := Reg(ModeToggleOwner, ArenaCreateModeToggleInitialSpawn, Handler.OnToggleInitialSpawn, Normal);
      var f := Reg(ModeToggleOwner, DomKeydown, Handler.OnKeyDown, Normal);
      bus.RemoveListener(a);
      bus.RemoveListener(b);
      bus.RemoveListener(c);
      bus.RemoveListener(d);
      bus.RemoveListener(e);
      bus.RemoveListener(f);
      Removed6(before, a, b, c, d, e, f);
    }

    /** Emits the click's toggle request, if any; the mode itself is left alone. */
    method OnClick(target: ClickTarget)
      modifies bus
      ensures bus.regs == old(bus.regs)
      ensures bus.emitted == old(bus.emitted) +
        match ClickRequest(mode, target)
        case Some(e) => [Emission(e, NoPayload, old(bus.Subscribers(e)))]
        case None => []
    {
      if target == ToggleButton(Camera) {
        if mode != Camera {
          bus.CallEvent(ArenaCreateModeToggleCamera, NoPayload);
        }
      } else if target == ToggleButton(Block) {
        if mode != Block {
          bus.CallEvent(ArenaCreateModeToggleBlock, NoPayload);
        }
      } else if target == ToggleButton(GameSpawn) {
        if mode != GameSpawn {
          bus.CallEvent(ArenaCreateModeToggleGameSpawn, NoPayload);
        }
      } else if target == ToggleButton(InitialSpawn) {
        if mode != InitialSpawn {
          bus.CallEvent(ArenaCreateModeToggleInitialSpawn, NoPayload);
        }
      }
    }

    /** Emits the key's toggle request, if any; the mode itself is left alone. */
    method OnKeyDown(code: string)
      modifies bus
      ensures bus.regs == old(bus.regs)
      ensures bus.emitted == old(bus.emitted) +
        match KeyRequest(mode, code)
        case Some(e) => [Emission(e, NoPayload, old(bus.Subscribers(e)))]
        case None => []
    {
      if code == "KeyB" {
        if mode != Block {
          bus.CallEvent(ArenaCreateModeToggleBlock, NoPayload);
        }
      } else if code == "KeyC" {
        if mode != Camera {
          bus.CallEvent(ArenaCreateModeToggleCamera, NoPayload);
        }
      }
    }

    method OnToggleCamera()
      modifies this
      ensures mode == Camera && HighlightsMode()
    {
      mode := Camera;
      UpdateHtmlClasses();
    }

    method OnToggleBlock()
      modifies this
      ensures mode == Block && HighlightsMode()
    {
      mode := Block;
      UpdateHtmlClasses();
    }

    method OnToggleGameSpawn()
      modifies this
      ensures mode == GameSpawn && HighlightsMode()
    {
      mode := GameSpawn;
      UpdateHtmlClasses();
    }

    method OnToggleInitialSpawn()
      modifies this
      ensures mode == InitialSpawn && HighlightsMode()
    {
      mode := InitialSpawn;
      UpdateHtmlClasses();
    }

    /** Adds the class to the current mode's button and removes it from the other three. */
    method UpdateHtmlClasses()
      modifies this
      ensures mode == old(mode) && HighlightsMode()
    {
      match mode
      case Camera =>
        cameraLit := true;
        blockLit := false; gameSpawnLit := false; initialSpawnLit := false;
      case Block =>
        blockLit := true;
        cameraLit := false; gameSpawnLit := false; initialSpawnLit := false;
      case GameSpawn =>
        gameSpawnLit := true;
        cameraLit := false; blockLit := false; initialSpawnLit := false;
      case InitialSpawn =>
        initialSpawnLit := true;
        cameraLit := false; gameSpawnLit := false; blockLit := false;
    }

    /** The bus delivering e: a toggle reaches its handler when that handler is registered. */
    method Receive(e: Event)
      modifies this
      ensures ToggleTarget(e).Some? &&
              Reg(ModeToggleOwner, e, ToggleListener(ToggleTarget(e).value), Normal) in bus.regs
              ==> mode == Follow(old(mode), e) && HighlightsMode()
      ensures !(ToggleTarget(e).Some? &&
                Reg(ModeToggleOwner, e, ToggleListener(ToggleTarget(e).value), Normal) in bus.regs)
              ==> mode == old(mode) && unchanged(this)
    {
      var t := ToggleTarget(e);
      if t.Some? && Reg(ModeToggleOwner, e, ToggleListener(t.value), Normal) in bus.regs {
        match t.value
        case Camera => OnToggleCamera();
        case Block => OnToggleBlock();
        case GameSpawn => OnToggleGameSpawn();
        case InitialSpawn => OnToggleInitialSpawn();
      }
    }
  }
}
