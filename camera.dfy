/**
 * Camera: a follow camera whose controls child is suspended while the game
 * menu is open. controlsEnabled is the user-facing "controls on" flag; the
 * menu handlers detach and reattach the controls only when it is set, and
 * never change it. The three.js math (pan, lookAt, resize) is not modelled.
 */
module CameraModel {
  import opened EventBus
  import opened Component
  import opened Geometry

  /** The controls flag and whether the controls child is attached. */
  datatype ControlsState = ControlsState(enabled: bool, attached: bool)

  /** The effect of a bus event on the controls: the two menu handlers; other events leave them. */
  function MenuStep(s: ControlsState, e: Event): ControlsState
  {
    if e == GameMenuOpen && s.enabled then ControlsState(s.enabled, false)
    else if e == GameMenuClose && s.enabled then ControlsState(s.enabled, true)
    else s
  }

  /** The menu handlers never change the flag, and act on the attachment only when the flag is set. */
  lemma MenuStepFrame(s: ControlsState, e: Event)
    ensures MenuStep(s, e).enabled == s.enabled
    ensures !s.enabled ==> MenuStep(s, e) == s
    ensures s.enabled && e == GameMenuOpen ==> !MenuStep(s, e).attached
    ensures s.enabled && e == GameMenuClose ==> MenuStep(s, e).attached
  {
  }

  /** Single-level suspension: a second open changes nothing, and one close restores the controls. */
  lemma NestedOpenRestores(s: ControlsState)
    requires s.enabled
    ensures MenuStep(MenuStep(s, GameMenuOpen), GameMenuOpen) == MenuStep(s, GameMenuOpen)
    ensures MenuStep(MenuStep(MenuStep(s, GameMenuOpen), GameMenuOpen), GameMenuClose) == ControlsState(true, true)
  {
  }

  /** n rounds of menu open followed by menu close. */
  function MenuCycles(s: ControlsState, n: nat): ControlsState
    decreases n
  {
    if n == 0 then s else MenuCycles(MenuStep(MenuStep(s, GameMenuOpen), GameMenuClose), n - 1)
  }

  /** Controls attached and enabled: any number of open/close rounds leaves them attached and enabled. */
  lemma {:induction false} MenuCyclesRestore(s: ControlsState, n: nat)
    requires s == ControlsState(true, true)
    ensures MenuCycles(s, n) == s
  {
    if n > 0 {
      assert MenuStep(MenuStep(s, GameMenuOpen), GameMenuClose) == s;
      MenuCyclesRestore(s, n - 1);
    }
  }

  /** The controls after a sequence of bus events. */
  function MenuRun(s: ControlsState, evs: seq<Event>): ControlsState
    decreases |evs|
  {
    if evs == [] then s else MenuRun(MenuStep(s, evs[0]), evs[1..])
  }

  /** No sequence of bus events reaching the camera's listeners changes the flag. */
  lemma {:induction false} MenuRunKeepsFlag(s: ControlsState, evs: seq<Event>)
    ensures MenuRun(s, evs).enabled == s.enabled
    decreases |evs|
  {
    if evs != [] {
      MenuRunKeepsFlag(MenuStep(s, evs[0]), evs[1..]);
    }
  }

  /** The five (event, handler, level) registrations enable adds; DOM_RESIZE at LOW. */
  function Subscriptions(): multiset<Reg>
  {
    multiset{
      Reg(CameraOwner, DomResize, Handler.OnResize, Low),
      Reg(CameraOwner, GameMenuOpen, Handler.OnGameMenuOpen, Normal),
      Reg(CameraOwner, GameMenuClose, Handler.OnGameMenuClose, Normal),
      Reg(CameraOwner, CameraControlsUpdate, Handler.OnControlsUpdate, Normal),
      Reg(CameraOwner, CameraPan, Handler.OnPan, Normal)
    }
  }

  class Camera {
    const bus: Bus
    const node: Node
    var controlsEnabled: bool
    var followingSpherical: Spherical
    var followingTarget: Vec3

    function Controls(): ControlsState
      reads this, node
    {
      ControlsState(controlsEnabled, CameraControls in node.children)
    }

    /** The initial spherical offset is a parameter; the target starts at the origin. */
    constructor (bus: Bus, initial: Spherical)
      ensures this.bus == bus && fresh(node) && node.children == {}
      ensures controlsEnabled
      ensures followingSpherical == initial && followingTarget == Vec3(0.0, 0.0, 0.0)
    {
      this.bus := bus;
      node := new Node();
      followingSpherical := initial;
      followingTarget := Vec3(0.0, 0.0, 0.0);
      controlsEnabled := true;
    }

    method Enable()
      modifies bus
      ensures bus.regs == old(bus.regs) + Subscriptions()
      ensures bus.emitted == old(bus.emitted)
    {
      bus.AddListener(Reg(CameraOwner, DomResize, Handler.OnResize, Low));
      bus.AddListener(Reg(CameraOwner, GameMenuOpen, Handler.OnGameMenuOpen, Normal));
      bus.AddListener(Reg(CameraOwner, GameMenuClose, Handler.OnGameMenuClose, Normal));
      bus.AddListener(Reg(CameraOwner, CameraControlsUpdate, Handler.OnControlsUpdate, Normal));
      bus.AddListener(Reg(CameraOwner, CameraPan, Handler.OnPan, Normal));
    }

    method Disable()
      modifies bus
      ensures bus.regs == old(bus.regs) - Subscriptions()
      ensures bus.emitted == old(bus.emitted)
    {
      ghost var before := bus.regs;
      var a := Reg(CameraOwner, DomResize, Handler.OnResize, Low);
      var b := Reg(CameraOwner, GameMenuOpen, Handler.OnGameMenuOpen, Normal);
      var c := Reg(CameraOwner, GameMenuClose, Handler.OnGameMenuClose, Normal);
      var d := Reg(CameraOwner, CameraControlsUpdate, Handler.OnControlsUpdate, Normal);
      var e := Reg(CameraOwner, CameraPan, Handler.OnPan, Normal);
      bus.RemoveListener(a);
      bus.RemoveListener(b);
      bus.RemoveListener(c);
      bus.RemoveListener(d);
      bus.RemoveListener(e);
      Removed5(before, a, b, c, d, e);
    }

    /** Attach the controls; with updateStatus the flag becomes true, otherwise it is kept. */
    method AttachControls(updateStatus: bool)
      modifies this, node
      ensures node.children == old(node.children) + {CameraControls}
      ensures controlsEnabled == (updateStatus || old(controlsEnabled))
      ensures followingSpherical == old(followingSpherical) && followingTarget == old(followingTarget)
    {
      node.AttachChild(CameraControls);
      if updateStatus {
        controlsEnabled := true;
      }
    }

    /** Detach the controls; with updateStatus the flag becomes false, otherwise it is kept. */
    method DetachControls(updateStatus: bool)
      modifies this, node
      ensures node.children == old(node.children) - {CameraControls}
      ensures controlsEnabled == (!updateStatus && old(controlsEnabled))
      ensures followingSpherical == old(followingSpherical) && followingTarget == old(followingTarget)
    {
      node.DetachChild(CameraControls);
      if updateStatus {
        controlsEnabled := false;
      }
    }

    /** The control update replaces the spherical offset; the follow target is kept. */
    method OnControlsUpdate(spherical: Spherical)
      modifies this
      ensures followingSpherical == spherical
      ensures followingTarget == old(followingTarget) && controlsEnabled == old(controlsEnabled)
    {
      followingSpherical := spherical;
    }

    method OnGameMenuOpen()
      modifies this, node
      ensures Controls() == MenuStep(old(Controls()), GameMenuOpen)
      ensures node.children - {CameraControls} == old(node.children) - {CameraControls}
      ensures followingSpherical == old(followingSpherical) && followingTarget == old(followingTarget)
    {
      if controlsEnabled {
        DetachControls(false);
      }
    }

    method OnGameMenuClose()
      modifies this, node
      ensures Controls() == MenuStep(old(Controls()), GameMenuClose)
      ensures node.children - {CameraControls} == old(node.children) - {CameraControls}
      ensures followingSpherical == old(followingSpherical) && followingTarget == old(followingTarget)
    {
      if controlsEnabled {
        AttachControls(false);
      }
    }
  }

  /** enable followed by disable leaves the bus as it was. */
  method EnableThenDisable(c: Camera)
    modifies c.bus
    ensures c.bus.regs == old(c.bus.regs) && c.bus.emitted == old(c.bus.emitted)
  {
    c.Enable();
    c.Disable();
  }
}
