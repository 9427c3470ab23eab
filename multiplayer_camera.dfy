/**
 * MultiplayerCamera: its controls are attached on enable and on a close
 * request, and detached on disable and on menu open, unconditionally. A
 * spawn assignment retargets the controls without attaching anything.
 */
module MultiplayerCameraModel {
  import opened EventBus
  import opened Component
  import opened Geometry

  /** The four registrations enable adds; the close handler listens to GAMEMENU_CLOSE_REQUEST. */
  function Subscriptions(): multiset<Reg>
  {
    multiset{
      Reg(MultiplayerCameraOwner, DomResize, Handler.OnResize, Low),
      Reg(MultiplayerCameraOwner, GameMenuOpen, Handler.OnGameMenuOpen, Normal),
      Reg(MultiplayerCameraOwner, GameMenuCloseRequest, Handler.OnGameMenuClose, Normal),
      Reg(MultiplayerCameraOwner, ArenaInitialSpawnAssignment, Handler.OnArenaSceneUpdate, Normal)
    }
  }

  /** The close handler is bound to the close request, never to GAMEMENU_CLOSE; the resize handler runs at LOW. */
  lemma CloseBoundToRequest()
    ensures Reg(MultiplayerCameraOwner, GameMenuCloseRequest, Handler.OnGameMenuClose, Normal) in Subscriptions()
    ensures forall r :: r in Subscriptions() ==> r.event != GameMenuClose
    ensures forall r :: r in Subscriptions() && r.event == DomResize ==> r.level == Low
  {
  }

  /** The controls' new target for a spawn at loc: shifted half a block in x and z, on the ground plane. */
  function SpawnTarget(loc: Vec3): (t: Vec3)
    ensures t.x == loc.x + 0.5 && t.z == loc.z + 0.5 && t.y == 0.0
  {
    Vec3(loc.x + 0.5, 0.0, loc.z + 0.5)
  }

  class MultiplayerCamera {
    const bus: Bus
    const node: Node
    /** The spherical the controls are reset to on a spawn assignment. */
    const spawnSpherical: Spherical
    var controlsTarget: Vec3
    var controlsSpherical: Spherical

    constructor (bus: Bus, spawnSpherical: Spherical, target: Vec3, spherical: Spherical)
      ensures this.bus == bus && fresh(node) && node.children == {}
      ensures this.spawnSpherical == spawnSpherical
      ensures controlsTarget == target && controlsSpherical == spherical
    {
      this.bus := bus;
      node := new Node();
      this.spawnSpherical := spawnSpherical;
      controlsTarget := target;
      controlsSpherical := spherical;
    }

    /** Registers the four listeners and ends with the controls attached. */
    method Enable()
      modifies bus, node
      ensures bus.regs == old(bus.regs) + Subscriptions()
      ensures bus.emitted == old(bus.emitted)
      ensures node.children == old(node.children) + {MultiplayerControls}
    {
      bus.AddListener(Reg(MultiplayerCameraOwner, DomResize, Handler.OnResize, Low));
      bus.AddListener(Reg(MultiplayerCameraOwner, GameMenuOpen, Handler.OnGameMenuOpen, Normal));
      bus.AddListener(Reg(MultiplayerCameraOwner, GameMenuCloseRequest, Handler.OnGameMenuClose, Normal));
      bus.AddListener(Reg(MultiplayerCameraOwner, ArenaInitialSpawnAssignment, Handler.OnArenaSceneUpdate, Normal));
      AttachControls();
    }

    /** Removes the four listeners and ends with the controls detached. */
    method Disable()
      modifies bus, node
      ensures bus.regs == old(bus.regs) - Subscriptions()
      ensures bus.emitted == old(bus.emitted)
      ensures node.children == old(node.children) - {MultiplayerControls}
    {
      ghost var before := bus.regs;
      var a := Reg(MultiplayerCameraOwner, DomResize, Handler.OnResize, Low);
      var b := Reg(MultiplayerCameraOwner, GameMenuOpen, Handler.OnGameMenuOpen, Normal);
      var c := Reg(MultiplayerCameraOwner, GameMenuCloseRequest, Handler.OnGameMenuClose, Normal);
      var d := Reg(MultiplayerCameraOwner, ArenaInitialSpawnAssignment, Handler.OnArenaSceneUpdate, Normal);
      bus.RemoveListener(a);
      bus.RemoveListener(b);
      bus.RemoveListener(c);
      bus.RemoveListener(d);
      Removed4(before, a, b, c, d);
      DetachControls();
    }

    method OnGameMenuOpen()
      modifies node
      ensures node.children == old(node.children) - {MultiplayerControls}
    {
      DetachControls();
    }

    method OnGameMenuClose()
      modifies node
      ensures node.children == old(node.children) + {MultiplayerControls}
    {
      AttachControls();
    }

    method AttachControls()
      modifies node
      ensures node.children == old(node.children) + {MultiplayerControls}
    {
      node.AttachChild(MultiplayerControls);
    }

    method DetachControls()
      modifies node
      ensures node.children == old(node.children) - {MultiplayerControls}
    {
      node.DetachChild(MultiplayerControls);
    }

    /** Retargets the controls at the spawn; no child is attached or detached. */
    method OnArenaSceneUpdate(loc: Vec3)
      modifies this
      ensures controlsTarget == SpawnTarget(loc)
      ensures controlsSpherical == spawnSpherical
    {
      controlsTarget := Vec3(loc.x + 0.5, 0.0, loc.z + 0.5);
      controlsSpherical := spawnSpherical;
    }
  }
}
