/**
 * The creation-tool handler and the HUD toggle observe the same four toggle
 * events and both start in CAMERA. One event delivered to both keeps their
 * modes equal (over a whole run, each holds FollowAll of the start mode:
 * CreationTools.RunKeepsInvariant and ModeToggleHud's Receive).
 */
module ModeSync {
  import opened EventBus
  import opened CreateMode
  import CreationTools
  import ModeToggleHud

  /** Both components enabled: every listener each registered is on the bus. */
  ghost predicate BothEnabled(bus: Bus)
    reads bus
  {
    CreationTools.Subscriptions() <= bus.regs && ModeToggleHud.Subscriptions() <= bus.regs
  }

  /** One callEvent delivered to both observers leaves their modes equal and the tool invariant intact. */
  method Deliver(bus: Bus, tools: CreationTools.CreationToolHandler, hud: ModeToggleHud.ArenaCreateModeToggle, e: Event)
    requires tools.bus == bus && hud.bus == bus
    requires BothEnabled(bus) && tools.mode == hud.mode
    requires CreationTools.AtMostCurrentTool(tools.State())
    modifies tools, tools.node, hud
    ensures tools.State() == CreationTools.Step(old(tools.State()), e)
    ensures tools.mode == hud.mode == Follow(old(hud.mode), e)
    ensures CreationTools.AtMostCurrentTool(tools.State())
  {
    ghost var s0, m0 := tools.State(), hud.mode;
    CreationTools.StepFrame(s0, e);
    var h := CreationTools.ListenerFor(e);
    if h.Some? {
      assert Reg(CreationToolHandlerOwner, e, h.value, Normal) in bus.regs;
    }
    tools.Receive(e);
    assert tools.State() == CreationTools.Step(s0, e);
    var t := ToggleTarget(e);
    if t.Some? {
      ModeToggleHud.ToggleListenerSubscribed(t.value);
      assert Reg(ModeToggleOwner, e, ModeToggleHud.ToggleListener(t.value), Normal) in bus.regs;
    }
    hud.Receive(e);
    assert hud.mode == Follow(m0, e);
  }

  /**
   * A sequence of callEvents, each delivered to both observers: the two
   * agree on the mode after every one, the mode is the last toggle's, and the
   * tool handler has run the whole sequence.
   */
  method DeliverAll(bus: Bus, tools: CreationTools.CreationToolHandler, hud: ModeToggleHud.ArenaCreateModeToggle, evs: seq<Event>)
    requires tools.bus == bus && hud.bus == bus
    requires BothEnabled(bus) && tools.mode == hud.mode
    requires CreationTools.AtMostCurrentTool(tools.State())
    modifies tools, tools.node, hud
    ensures tools.State() == CreationTools.Run(old(tools.State()), evs)
    ensures tools.mode == hud.mode == FollowAll(old(hud.mode), evs)
    ensures CreationTools.AtMostCurrentTool(tools.State())
  {
    ghost var s0, m0 := tools.State(), hud.mode;
    var i := 0;
    while i < |evs|
      invariant 0 <= i <= |evs|
      invariant tools.mode == hud.mode
      invariant CreationTools.AtMostCurrentTool(tools.State())
      invariant CreationTools.Run(tools.State(), evs[i..]) == CreationTools.Run(s0, evs)
      invariant FollowAll(hud.mode, evs[i..]) == FollowAll(m0, evs)
    {
      assert evs[i..][1..] == evs[i + 1..];
      Deliver(bus, tools, hud, evs[i]);
      i := i + 1;
    }
    assert evs[i..] == [];
  }

  /**
   * A click on the HUD: the request it emits, delivered to both observers,
   * puts both in the button's mode with that mode's tool attached; a click on
   * the current mode's button emits nothing and changes nothing.
   */
  method Click(bus: Bus, tools: CreationTools.CreationToolHandler, hud: ModeToggleHud.ArenaCreateModeToggle,
               target: ModeToggleHud.ClickTarget)
    requires tools.bus == bus && hud.bus == bus
    requires BothEnabled(bus) && tools.mode == hud.mode
    requires CreationTools.AtMostCurrentTool(tools.State())
    modifies bus, tools, tools.node, hud
    ensures tools.mode == hud.mode
    ensures target.ToggleButton? ==> hud.mode == target.mode
    ensures target.ToggleButton? && target.mode != old(hud.mode) ==> CreationTools.CurrentToolAttached(tools.State())
    ensures target.OtherTarget? ==> hud.mode == old(hud.mode)
    ensures CreationTools.AtMostCurrentTool(tools.State())
  {
    var request := ModeToggleHud.ClickRequest(hud.mode, target);
    hud.OnClick(target);
    if request.Some? {
      CreationTools.ToggleSelectsTool(tools.State(), target.mode);
      Deliver(bus, tools, hud, request.value);
    }
  }
}
