/**
 * OptionsMenu: lets the user rebind the five controls and change the two
 * sliders, saving every change into the stored options document and
 * announcing the new document with OPTIONS_UPDATE.
 *
 * A click on a binding label starts a rebinding session: the label reads
 * "Listening..." and a key listener and a mouse listener are registered for
 * that session; the next key press or mouse button concludes it, relabels
 * the control and saves the binding. Disabling the menu clears the
 * listening flag but does not remove a live session's listeners, so more
 * than one session can be pending, and the next input concludes all of
 * them.
 */
module OptionsMenuModel {
  import opened Wrappers
  import opened EventBus
  import opened Settings

  /** The five rebindable controls. */
  datatype Action = Forward | Backward | Left | Right | Shoot

  /** The attribute name a control is stored under; distinct controls have distinct names, none of them a slider's. */
  function AttrName(a: Action): (n: string)
    ensures n != "volume" && n != "mouseSensitivity"
  {
    match a
    case Forward => "forward"
    case Backward => "backward"
    case Left => "left"
    case Right => "right"
    case Shoot => "shoot"
  }

  lemma AttrNameInjective(a: Action, b: Action)
    requires AttrName(a) == AttrName(b)
    ensures a == b
  {
  }

  /** The order in which loadValuesFromStorage fills the labels. */
  const LoadOrder: seq<Action> := [Forward, Backward, Left, Right, Shoot]

  /** What a DOM click hit. */
  datatype Target = Label(action: Action) | ReturnButton | OtherTarget

  /** The bus handler each label's click listener runs. */
  function ClickHandler(a: Action): (h: Handler)
    ensures h != Handler.HandleReturnClick
  {
    match a
    case Forward => Handler.HandleForwardClick
    case Backward => Handler.HandleBackwardClick
    case Left => Handler.HandleLeftClick
    case Right => Handler.HandleRightClick
    case Shoot => Handler.HandleShootClick
  }

  lemma ClickHandlerInjective(a: Action, b: Action)
    requires ClickHandler(a) == ClickHandler(b)
    ensures a == b
  {
  }

  /** The six click listeners enable registers, in its order. */
  function Subscriptions(): multiset<Reg>
  {
    multiset{
      Reg(OptionsMenuOwner, DomClick, Handler.HandleBackwardClick, Normal),
      Reg(OptionsMenuOwner, DomClick, Handler.HandleForwardClick, Normal),
      Reg(OptionsMenuOwner, DomClick, Handler.HandleLeftClick, Normal),
      Reg(OptionsMenuOwner, DomClick, Handler.HandleRightClick, Normal),
      Reg(OptionsMenuOwner, DomClick, Handler.HandleReturnClick, Normal),
      Reg(OptionsMenuOwner, DomClick, Handler.HandleShootClick, Normal)}
  }

  const VolumeReg := DomReg(OptionsMenuOwner, "#option-value-volume", "change", Handler.HandleVolumeChange)
  const MouseSensitivityReg := DomReg(OptionsMenuOwner, "#option-value-mouse", "change", Handler.HandleMouseChange)

  /** Every control has its own click listener on DOM_CLICK, besides the return button's. */
  lemma EveryLabelSubscribed(a: Action)
    ensures Reg(OptionsMenuOwner, DomClick, ClickHandler(a), Normal) in Subscriptions()
    ensures Reg(OptionsMenuOwner, DomClick, Handler.HandleReturnClick, Normal) in Subscriptions()
    ensures |Subscriptions()| == 6
  {
  }

  /** What one click handler does, given the listening flag before it runs. */
  datatype ClickOutcome = StartListening(action: Action) | ReturnRequested | Ignored

  /** A label click starts a session and the return button leaves the menu, both only while not listening. */
  function ClickEffect(listening: bool, t: Target): (o: ClickOutcome)
    ensures o.StartListening? <==> !listening && t.Label?
    ensures o.StartListening? ==> o.action == t.action
    ensures o == ReturnRequested <==> !listening && t == ReturnButton
  {
    if listening then Ignored
    else match t
      case Label(a) => StartListening(a)
      case ReturnButton => ReturnRequested
      case OtherTarget => Ignored
  }

  /** A click's effect on the menu: none unless the menu's click listeners are registered. */
  function DeliveredEffect(enabled: bool, listening: bool, t: Target): ClickOutcome
  {
    if enabled then ClickEffect(listening, t) else Ignored
  }

  /** One rebinding session: its own listener pair, and the control it rebinds. */
  datatype Session = Session(id: nat, action: Action)

  function KeyReg(id: nat): Reg
  {
    Reg(OptionsMenuOwner, DomKeydown, Handler.KeyListener(id), Normal)
  }

  function MouseReg(id: nat): Reg
  {
    Reg(OptionsMenuOwner, DomMousedown, Handler.MouseListener(id), Normal)
  }

  /** The binding a key press records: its code and its key, not a mouse button. */
  function KeyData(code: string, key: string): (b: StoredValue)
    ensures b.Binding? && !b.isMouse && b.code == code && b.key == key
    ensures LabelText(b) == key
  {
    Binding(code, key, false)
  }

  /** The binding a mouse button records: the button number as both code and key, marked as a mouse binding. */
  function MouseData(button: nat): (b: StoredValue)
    ensures b.Binding? && b.isMouse && b.code == b.key == DecimalText(button)
    ensures LabelText(b) == "Mouse " + DecimalText(button)
  {
    Binding(DecimalText(button), DecimalText(button), true)
  }

  /** The listener registrations of a sequence of sessions. */
  function SessionRegs(ss: seq<Session>): (m: multiset<Reg>)
    ensures |m| == 2 * |ss|
    decreases |ss|
  {
    if ss == [] then multiset{}
    else SessionRegs(ss[..|ss| - 1]) + multiset{KeyReg(ss[|ss| - 1].id), MouseReg(ss[|ss| - 1].id)}
  }

  /** The stored document after each session in turn saves binding b. */
  function SaveAll(store: Option<Options>, ss: seq<Session>, b: StoredValue): (r: Option<Options>)
    ensures r.Some? <==> store.Some?
    decreases |ss|
  {
    if ss == [] then store
    else Settings.SaveChange(SaveAll(store, ss[..|ss| - 1], b), AttrName(ss[|ss| - 1].action), b)
  }

  /** The OPTIONS_UPDATE announcement saveChange makes of the document it leaves: none when nothing is stored. */
  function UpdateEmission(store: Option<Options>, subs: set<Reg>): (s: seq<Emission>)
    ensures |s| <= 1 && (|s| == 1 <==> store.Some?)
    ensures store.Some? ==> s == [Emission(OptionsUpdate, OptionsPayload(store.value), subs)]
  {
    if store.Some? then [Emission(OptionsUpdate, OptionsPayload(store.value), subs)] else []
  }

  /** The OPTIONS_UPDATE emissions of those saves, each carrying the document as it then stands. */
  function SaveEmissions(store: Option<Options>, ss: seq<Session>, b: StoredValue, subs: set<Reg>): seq<Emission>
    decreases |ss|
  {
    if ss == [] then []
    else SaveEmissions(store, ss[..|ss| - 1], b, subs) + UpdateEmission(SaveAll(store, ss, b), subs)
  }

  /** The labels after each session in turn shows binding b. */
  function Relabel(labels: map<Action, string>, ss: seq<Session>, b: StoredValue): map<Action, string>
    requires b.Binding?
    decreases |ss|
  {
    if ss == [] then labels
    else Relabel(labels, ss[..|ss| - 1], b)[ss[|ss| - 1].action := LabelText(b)]
  }

  /** Concluding sessions relabels exactly their controls, each with the input's label text. */
  lemma {:induction false} RelabelShowsInput(labels: map<Action, string>, ss: seq<Session>, b: StoredValue, a: Action)
    requires b.Binding?
    ensures (exists i :: 0 <= i < |ss| && ss[i].action == a) ==>
      a in Relabel(labels, ss, b) && Relabel(labels, ss, b)[a] == LabelText(b)
    ensures (forall i :: 0 <= i < |ss| ==> ss[i].action != a) ==>
      (a in labels <==> a in Relabel(labels, ss, b)) && (a in labels ==> Relabel(labels, ss, b)[a] == labels[a])
    decreases |ss|
  {
    if ss != [] {
      var init := ss[..|ss| - 1];
      RelabelShowsInput(labels, init, b, a);
      if ss[|ss| - 1].action != a {
        if exists i :: 0 <= i < |ss| && ss[i].action == a {
          var i :| 0 <= i < |ss| && ss[i].action == a;
          assert init[i].action == a;
        }
        assert forall i :: 0 <= i < |init| ==> init[i] == ss[i];
      }
    }
  }

  /**
   * Saving for each session keeps a missing document missing; otherwise it
   * stores the binding under every concluded control and leaves every other
   * attribute as it was.
   */
  lemma {:induction false} SaveAllStoresBinding(store: Option<Options>, ss: seq<Session>, b: StoredValue)
    ensures store.Some? ==> forall i :: 0 <= i < |ss| ==>
      AttrName(ss[i].action) in SaveAll(store, ss, b).value && SaveAll(store, ss, b).value[AttrName(ss[i].action)] == b
    ensures store.Some? ==> forall k :: k in store.value && (forall i :: 0 <= i < |ss| ==> AttrName(ss[i].action) != k) ==>
      k in SaveAll(store, ss, b).value && SaveAll(store, ss, b).value[k] == store.value[k]
    decreases |ss|
  {
    if ss != [] {
      var init := ss[..|ss| - 1];
      SaveAllStoresBinding(store, init, b);
      assert forall i :: 0 <= i < |init| ==> init[i] == ss[i];
    }
  }

  /** There is one emission per save, and none when nothing is stored; the last one carries the final document. */
  lemma {:induction false} SaveEmissionsCount(store: Option<Options>, ss: seq<Session>, b: StoredValue, subs: set<Reg>)
    ensures store.None? ==> SaveEmissions(store, ss, b, subs) == []
    ensures store.Some? ==> |SaveEmissions(store, ss, b, subs)| == |ss|
    ensures store.Some? && ss != [] ==>
      SaveEmissions(store, ss, b, subs)[|ss| - 1] == Emission(OptionsUpdate, OptionsPayload(SaveAll(store, ss, b).value), subs)
    decreases |ss|
  {
    if ss != [] {
      SaveEmissionsCount(store, ss[..|ss| - 1], b, subs);
      SaveAllStoresBinding(store, ss, b);
    }
  }

  /** The part of the menu's state a conclusion changes, with the bus registry and log. */
  datatype MenuView = MenuView(
    labels: map<Action, string>, store: Option<Options>,
    regs: multiset<Reg>, emitted: seq<Emission>, listening: bool)

  /**
   * One session concluding on binding b: its label shows b, its two
   * listeners are unregistered, the flag clears, and b is saved under its
   * control (announced to subs when a document is stored).
   */
  function ConcludeStep(v: MenuView, s: Session, b: StoredValue, subs: set<Reg>): MenuView
    requires b.Binding?
  {
    var saved := Settings.SaveChange(v.store, AttrName(s.action), b);
    MenuView(
      v.labels[s.action := LabelText(b)], saved,
      v.regs - multiset{KeyReg(s.id)} - multiset{MouseReg(s.id)},
      v.emitted + UpdateEmission(saved, subs), false)
  }

  /** A view whose every part is what ConcludeStep computes is ConcludeStep's view. */
  lemma ConcludeStepParts(v: MenuView, s: Session, b: StoredValue, subs: set<Reg>, w: MenuView)
    requires b.Binding?
    requires w.labels == v.labels[s.action := LabelText(b)]
    requires w.store == Settings.SaveChange(v.store, AttrName(s.action), b)
    requires w.regs == v.regs - multiset{KeyReg(s.id)} - multiset{MouseReg(s.id)}
    requires w.emitted == v.emitted + UpdateEmission(w.store, subs)
    requires !w.listening
    ensures w == ConcludeStep(v, s, b, subs)
  {
  }

  /** Sessions concluding one after another, oldest first. */
  function ConcludeRun(v: MenuView, ss: seq<Session>, b: StoredValue, subs: set<Reg>): MenuView
    requires b.Binding?
    decreases |ss|
  {
    if ss == [] then v else ConcludeStep(ConcludeRun(v, ss[..|ss| - 1], b, subs), ss[|ss| - 1], b, subs)
  }

  lemma ConcludeRunExtend(v: MenuView, pre: seq<Session>, s: Session, b: StoredValue, subs: set<Reg>)
    requires b.Binding?
    ensures ConcludeRun(v, pre + [s], b, subs) == ConcludeStep(ConcludeRun(v, pre, b, subs), s, b, subs)
  {
    assert (pre + [s])[..|pre|] == pre;
  }

  /** Concluding a run of sessions relabels each of their controls with the input's label text. */
  lemma {:induction false} ConcludeRunLabels(v: MenuView, ss: seq<Session>, b: StoredValue, subs: set<Reg>)
    requires b.Binding?
    ensures ConcludeRun(v, ss, b, subs).labels == Relabel(v.labels, ss, b)
    decreases |ss|
  {
    if ss != [] {
      ConcludeRunLabels(v, ss[..|ss| - 1], b, subs);
    }
  }

  /** Concluding a run of sessions saves the binding once for each of them, in order. */
  lemma {:induction false} ConcludeRunStore(v: MenuView, ss: seq<Session>, b: StoredValue, subs: set<Reg>)
    requires b.Binding?
    ensures ConcludeRun(v, ss, b, subs).store == SaveAll(v.store, ss, b)
    decreases |ss|
  {
    if ss != [] {
      ConcludeRunStore(v, ss[..|ss| - 1], b, subs);
    }
  }

  /** Concluding a run of sessions unregisters the key and mouse listeners of every one of them. */
  lemma {:induction false} ConcludeRunRegs(v: MenuView, ss: seq<Session>, b: StoredValue, subs: set<Reg>)
    requires b.Binding?
    ensures ConcludeRun(v, ss, b, subs).regs == v.regs - SessionRegs(ss)
    decreases |ss|
  {
    if ss == [] {
      assert v.regs - multiset{} == v.regs;
    } else {
      var pre := ss[..|ss| - 1];
      var s := ss[|ss| - 1];
      ConcludeRunRegs(v, pre, b, subs);
      RegsExtend(v.regs, SessionRegs(pre), KeyReg(s.id), MouseReg(s.id));
    }
  }

  /** Concluding a run of sessions announces each save, with the document as it then stands. */
  lemma {:induction false} ConcludeRunEmitted(v: MenuView, ss: seq<Session>, b: StoredValue, subs: set<Reg>)
    requires b.Binding?
    ensures ConcludeRun(v, ss, b, subs).emitted == v.emitted + SaveEmissions(v.store, ss, b, subs)
    decreases |ss|
  {
    if ss != [] {
      var pre := ss[..|ss| - 1];
      ConcludeRunEmitted(v, pre, b, subs);
      ConcludeRunStore(v, ss, b, subs);
    }
  }

  /**
   * Concluding a run of sessions relabels them, saves the binding for each,
   * unregisters all their listeners, announces each save, and leaves the
   * flag clear unless the run is empty.
   */
  lemma ConcludeRunParts(v: MenuView, ss: seq<Session>, b: StoredValue, subs: set<Reg>)
    requires b.Binding?
    ensures ConcludeRun(v, ss, b, subs).labels == Relabel(v.labels, ss, b)
    ensures ConcludeRun(v, ss, b, subs).store == SaveAll(v.store, ss, b)
    ensures ConcludeRun(v, ss, b, subs).regs == v.regs - SessionRegs(ss)
    ensures ConcludeRun(v, ss, b, subs).emitted == v.emitted + SaveEmissions(v.store, ss, b, subs)
    ensures ConcludeRun(v, ss, b, subs).listening == (v.listening && ss == [])
  {
    ConcludeRunLabels(v, ss, b, subs);
    ConcludeRunStore(v, ss, b, subs);
    ConcludeRunRegs(v, ss, b, subs);
    ConcludeRunEmitted(v, ss, b, subs);
  }

  lemma ShiftOne(done: seq<Session>, rest: seq<Session>)
    requires rest != []
    ensures (done + [rest[0]]) + rest[1..] == done + rest
  {
    assert rest == [rest[0]] + rest[1..];
  }

  /** Removing a session's two listeners after the earlier sessions' removes the lot. */
  lemma RegsExtend(regs: multiset<Reg>, earlier: multiset<Reg>, k: Reg, m: Reg)
    ensures regs - earlier - multiset{k} - multiset{m} == regs - (earlier + multiset{k, m})
  {
    assert forall x :: (regs - earlier - multiset{k} - multiset{m})[x] == (regs - (earlier + multiset{k, m}))[x];
  }

  /** Starting one session and concluding it leaves the registry as it was before the session started. */
  lemma ListenThenConcludeRestores(before: multiset<Reg>, s: Session)
    ensures (before + multiset{KeyReg(s.id), MouseReg(s.id)}) - SessionRegs([s]) == before
  {
    assert [s][..0] == [];
  }

  /** Concluding a single session relabels and saves its one control and emits one update. */
  lemma ConcludeOneSession(store: Option<Options>, labels: map<Action, string>, s: Session, b: StoredValue, subs: set<Reg>)
    requires b.Binding?
    ensures SaveAll(store, [s], b) == Settings.SaveChange(store, AttrName(s.action), b)
    ensures Relabel(labels, [s], b) == labels[s.action := LabelText(b)]
    ensures SaveEmissions(store, [s], b, subs) == UpdateEmission(SaveAll(store, [s], b), subs)
  {
    assert [s][..0] == [];
  }

  /**
   * loadValuesFromStorage's labels: the controls in load order, each from
   * its stored entry, stopping at the first control the document has no
   * entry for (the source fails there). The flag says whether all loaded.
   */
  function LoadLabels(labels: map<Action, string>, opts: Options, order: seq<Action>): (r: (map<Action, string>, bool))
    decreases |order|
  {
    if order == [] then (labels, true)
    else match StoredLabel(opts, AttrName(order[0]))
      case None => (labels, false)
      case Some(t) => LoadLabels(labels[order[0] := t], opts, order[1..])
  }

  /** Loading completes exactly when every control has an entry, and then each label shows its entry. */
  lemma {:induction false} LoadLabelsComplete(labels: map<Action, string>, opts: Options, order: seq<Action>)
    ensures LoadLabels(labels, opts, order).1 <==> forall i :: 0 <= i < |order| ==> AttrName(order[i]) in opts
    ensures LoadLabels(labels, opts, order).1 ==> forall i :: 0 <= i < |order| ==>
      order[i] in LoadLabels(labels, opts, order).0 &&
      LoadLabels(labels, opts, order).0[order[i]] == EntryLabel(opts[AttrName(order[i])])
    decreases |order|
  {
    if order != [] {
      var a := order[0];
      var rest := order[1..];
      assert forall i :: 1 <= i < |order| ==> order[i] == rest[i - 1];
      if AttrName(a) in opts {
        var l1 := labels[a := EntryLabel(opts[AttrName(a)])];
        LoadLabelsComplete(l1, opts, rest);
        assert LoadLabels(labels, opts, order) == LoadLabels(l1, opts, rest);
        if LoadLabels(l1, opts, rest).1 {
          var r := LoadLabels(l1, opts, rest).0;
          forall i | 0 <= i < |order|
            ensures order[i] in r && r[order[i]] == EntryLabel(opts[AttrName(order[i])])
          {
            if i > 0 {
              assert order[i] == rest[i - 1];
            } else if exists j :: 0 <= j < |rest| && rest[j] == a {
              var j :| 0 <= j < |rest| && rest[j] == a;
            } else {
              LoadKeepsUnlisted(l1, opts, rest, a);
            }
          }
        }
      }
    }
  }

  /** Loading never changes the label of a control that is not in the load order. */
  lemma {:induction false} LoadKeepsUnlisted(labels: map<Action, string>, opts: Options, order: seq<Action>, a: Action)
    requires forall i :: 0 <= i < |order| ==> order[i] != a
    ensures (a in labels <==> a in LoadLabels(labels, opts, order).0)
    ensures a in labels ==> LoadLabels(labels, opts, order).0[a] == labels[a]
    decreases |order|
  {
    if order != [] && AttrName(order[0]) in opts {
      var rest := order[1..];
      assert forall i :: 0 <= i < |rest| ==> rest[i] == order[i + 1];
      LoadKeepsUnlisted(labels[order[0] := EntryLabel(opts[AttrName(order[0])])], opts, rest, a);
    }
  }

  class OptionsMenu {
    const bus: Bus
    const dom: DomEvents
    /** Whether a rebinding session started since the last conclusion or disable. */
    var isListening: bool
    /** The stored "userOptions" document, None when nothing is stored. */
    var store: Option<Options>
    /** The text each control's label shows. */
    var labels: map<Action, string>
    /** The sessions whose listeners are still registered, oldest first. */
    var pending: seq<Session>
    var nextSession: nat
    /**
     * Whether the constructor's load found every binding. When it did not, the
     * source's constructor throws and no menu exists.
     */
    var loadCompleted: bool

    ghost function View(): MenuView
      reads this, bus
    {
      MenuView(labels, store, bus.regs, bus.emitted, isListening)
    }

    /**
     * The constructor clears the listening flag and then loads the labels
     * from the stored document; markup is the labels' initial text. A load
     * that stops at a missing entry is recorded in loadCompleted.
     */
    constructor (bus: Bus, dom: DomEvents, stored: Option<Options>, markup: map<Action, string>)
      modifies {}
      ensures this.bus == bus && this.dom == dom
      ensures !isListening && store == stored && pending == []
      ensures stored.None? ==> labels == markup && loadCompleted
      ensures stored.Some? ==> (labels, loadCompleted) == LoadLabels(markup, stored.value, LoadOrder)
    {
      this.bus := bus;
      this.dom := dom;
      isListening := false;
      store := stored;
      labels := markup;
      pending := [];
      nextSession := 0;
      loadCompleted := true;
      new;
      loadCompleted := LoadValuesFromStorage();
    }

    method Enable()
      modifies bus, dom
      ensures bus.regs == old(bus.regs) + Subscriptions()
      ensures bus.emitted == old(bus.emitted)
      ensures dom.regs == old(dom.regs) + multiset{VolumeReg, MouseSensitivityReg}
    {
      AddClickListeners();
      dom.AddListener(DomReg(OptionsMenuOwner, "#option-value-volume", "change", Handler.HandleVolumeChange));
      dom.AddListener(DomReg(OptionsMenuOwner, "#option-value-mouse", "change", Handler.HandleMouseChange));
    }

    method AddClickListeners()
      modifies bus
      ensures bus.regs == old(bus.regs) + Subscriptions()
      ensures bus.emitted == old(bus.emitted)
    {
      bus.AddListener(Reg(OptionsMenuOwner, DomClick, Handler.HandleBackwardClick, Normal));
      bus.AddListener(Reg(OptionsMenuOwner, DomClick, Handler.HandleForwardClick, Normal));
      bus.AddListener(Reg(OptionsMenuOwner, DomClick, Handler.HandleLeftClick, Normal));
      bus.AddListener(Reg(OptionsMenuOwner, DomClick, Handler.HandleRightClick, Normal));
      bus.AddListener(Reg(OptionsMenuOwner, DomClick, Handler.HandleReturnClick, Normal));
      bus.AddListener(Reg(OptionsMenuOwner, DomClick, Handler.HandleShootClick, Normal));
    }

    /** Removes the click and slider listeners and clears the flag; live sessions stay pending. */
    method Disable()
      modifies this`isListening, bus, dom
      ensures bus.regs == old(bus.regs) - Subscriptions()
      ensures bus.emitted == old(bus.emitted)
      ensures dom.regs == old(dom.regs) - multiset{VolumeReg, MouseSensitivityReg}
      ensures !isListening
    {
      RemoveListeners();
      isListening := false;
    }

    /** The eight listener removals of disable, in its order. */
    method RemoveListeners()
      modifies bus, dom
      ensures bus.regs == old(bus.regs) - Subscriptions()
      ensures bus.emitted == old(bus.emitted)
      ensures dom.regs == old(dom.regs) - multiset{VolumeReg, MouseSensitivityReg}
    {
      RemoveClickListeners();
      RemoveChangeListeners();
    }

    method RemoveClickListeners()
      modifies bus
      ensures bus.regs == old(bus.regs) - Subscriptions()
      ensures bus.emitted == old(bus.emitted)
    {
      ghost var before := bus.regs;
      var a := Reg(OptionsMenuOwner, DomClick, Handler.HandleBackwardClick, Normal);
      var b := Reg(OptionsMenuOwner, DomClick, Handler.HandleForwardClick, Normal);
      var c := Reg(OptionsMenuOwner, DomClick, Handler.HandleLeftClick, Normal);
      var d := Reg(OptionsMenuOwner, DomClick, Handler.HandleRightClick, Normal);
      var e := Reg(OptionsMenuOwner, DomClick, Handler.HandleReturnClick, Normal);
      var f := Reg(OptionsMenuOwner, DomClick, Handler.HandleShootClick, Normal);
      bus.RemoveListener(a);
      bus.RemoveListener(b);
      bus.RemoveListener(c);
      bus.RemoveListener(d);
      bus.RemoveListener(e);
      bus.RemoveListener(f);
      Removed6(before, a, b, c, d, e, f);
    }

    method RemoveChangeListeners()
      modifies dom
      ensures dom.regs == old(dom.regs) - multiset{VolumeReg, MouseSensitivityReg}
    {
      ghost var before := dom.regs;
      var g := DomReg(OptionsMenuOwner, "#option-value-volume", "change", Handler.HandleVolumeChange);
      var h := DomReg(OptionsMenuOwner, "#option-value-mouse", "change", Handler.HandleMouseChange);
      dom.RemoveListener(g);
      dom.RemoveListener(h);
      DomRemoved2(before, g, h);
    }

    /** saveChange: when a document is stored, set the attribute and announce the new document; otherwise do nothing. */
    method SaveChange(attr: string, v: StoredValue)
      modifies this, bus
      ensures store == Settings.SaveChange(old(store), attr, v)
      ensures bus.regs == old(bus.regs)
      ensures bus.emitted == old(bus.emitted) + UpdateEmission(store, old(bus.Subscribers(OptionsUpdate)))
      ensures isListening == old(isListening) && labels == old(labels)
      ensures pending == old(pending) && nextSession == old(nextSession) && loadCompleted == old(loadCompleted)
    {
      if store.Some? {
        store := Some(store.value[attr := v]);
        bus.CallEvent(OptionsUpdate, OptionsPayload(store.value));
      }
    }

    method HandleVolumeChange(value: real)
      modifies this, bus
      ensures store == Settings.SaveChange(old(store), "volume", Number(value))
      ensures bus.regs == old(bus.regs)
      ensures bus.emitted == old(bus.emitted) + UpdateEmission(store, old(bus.Subscribers(OptionsUpdate)))
      ensures isListening == old(isListening) && labels == old(labels)
      ensures pending == old(pending) && nextSession == old(nextSession) && loadCompleted == old(loadCompleted)
    {
      SaveChange("volume", Number(value));
    }

    method HandleMouseChange(value: real)
      modifies this, bus
      ensures store == Settings.SaveChange(old(store), "mouseSensitivity", Number(value))
      ensures bus.regs == old(bus.regs)
      ensures bus.emitted == old(bus.emitted) + UpdateEmission(store, old(bus.Subscribers(OptionsUpdate)))
      ensures isListening == old(isListening) && labels == old(labels)
      ensures pending == old(pending) && nextSession == old(nextSession) && loadCompleted == old(loadCompleted)
    {
      SaveChange("mouseSensitivity", Number(value));
    }

    /** listenForInput: the label reads "Listening...", the flag is set and the session's two listeners are registered. */
    method ListenForInput(a: Action)
      modifies this, bus
      ensures labels == old(labels)[a := "Listening..."]
      ensures isListening
      ensures pending == old(pending) + [Session(old(nextSession), a)] && nextSession == old(nextSession) + 1
      ensures bus.regs == old(bus.regs) + multiset{KeyReg(old(nextSession)), MouseReg(old(nextSession))}
      ensures bus.emitted == old(bus.emitted) && store == old(store) && loadCompleted == old(loadCompleted)
    {
      labels := labels[a := "Listening..."];
      isListening := true;
      bus.AddListener(Reg(OptionsMenuOwner, DomKeydown, Handler.KeyListener(nextSession), Normal));
      bus.AddListener(Reg(OptionsMenuOwner, DomMousedown, Handler.MouseListener(nextSession), Normal));
      pending := pending + [Session(nextSession, a)];
      nextSession := nextSession + 1;
    }

    /** The click handler of one control's label (the five handlers differ only in their control). */
    method HandleBindingClick(a: Action, t: Target)
      modifies this, bus
      ensures ClickEffect(old(isListening), t) == StartListening(a) ==>
        && labels == old(labels)[a := "Listening..."] && isListening
        && pending == old(pending) + [Session(old(nextSession), a)] && nextSession == old(nextSession) + 1
        && bus.regs == old(bus.regs) + multiset{KeyReg(old(nextSession)), MouseReg(old(nextSession))}
      ensures ClickEffect(old(isListening), t) != StartListening(a) ==>
        && labels == old(labels) && isListening == old(isListening)
        && pending == old(pending) && nextSession == old(nextSession) && bus.regs == old(bus.regs)
      ensures bus.emitted == old(bus.emitted) && store == old(store) && loadCompleted == old(loadCompleted)
    {
      if t == Label(a) {
        if !isListening {
          ListenForInput(a);
        }
      }
    }

    method HandleReturnClick(t: Target)
      modifies bus
      ensures bus.regs == old(bus.regs)
      ensures bus.emitted == old(bus.emitted) +
        (if ClickEffect(isListening, t) == ReturnRequested
         then [Emission(OptMenuReturnOptClick, NoPayload, old(bus.Subscribers(OptMenuReturnOptClick)))]
         else [])
    {
      if t == ReturnButton {
        if !isListening {
          bus.CallEvent(OptMenuReturnOptClick, NoPayload);
        }
      }
    }

    /**
     * One DOM click: while the menu's six click listeners are registered the
     * bus runs them in registration order; otherwise the click does not reach
     * the menu. At most one session starts, and only for the clicked label
     * while not listening.
     */
    method DeliverClick(t: Target)
      modifies this, bus
      ensures DeliveredEffect(Subscriptions() <= old(bus.regs), old(isListening), t).StartListening? ==>
        && labels == old(labels)[t.action := "Listening..."] && isListening
        && pending == old(pending) + [Session(old(nextSession), t.action)] && nextSession == old(nextSession) + 1
        && bus.regs == old(bus.regs) + multiset{KeyReg(old(nextSession)), MouseReg(old(nextSession))}
      ensures !DeliveredEffect(Subscriptions() <= old(bus.regs), old(isListening), t).StartListening? ==>
        && labels == old(labels) && isListening == old(isListening)
        && pending == old(pending) && nextSession == old(nextSession) && bus.regs == old(bus.regs)
      ensures bus.emitted == old(bus.emitted) +
        (if DeliveredEffect(Subscriptions() <= old(bus.regs), old(isListening), t) == ReturnRequested
         then [Emission(OptMenuReturnOptClick, NoPayload, old(bus.Subscribers(OptMenuReturnOptClick)))]
         else [])
      ensures store == old(store) && loadCompleted == old(loadCompleted)
    {
      if Subscriptions() <= bus.regs {
        HandleBindingClick(Backward, t);
        HandleBindingClick(Forward, t);
        HandleBindingClick(Left, t);
        HandleBindingClick(Right, t);
        HandleReturnClick(t);
        HandleBindingClick(Shoot, t);
      }
    }

    /**
     * conclude, followed by the session's continuation: show the input's
     * label, unregister the session's listeners, clear the flag, and save the
     * binding under the session's control.
     */
    method Conclude(s: Session, data: StoredValue)
      requires data.Binding?
      modifies this, bus
      ensures labels == old(labels)[s.action := LabelText(data)]
      ensures bus.regs == old(bus.regs) - multiset{KeyReg(s.id)} - multiset{MouseReg(s.id)}
      ensures bus.Subscribers(OptionsUpdate) == old(bus.Subscribers(OptionsUpdate))
      ensures !isListening
      ensures store == Settings.SaveChange(old(store), AttrName(s.action), data)
      ensures bus.emitted == old(bus.emitted) + UpdateEmission(store, old(bus.Subscribers(OptionsUpdate)))
      ensures pending == old(pending) && nextSession == old(nextSession) && loadCompleted == old(loadCompleted)
    {
      labels := labels[s.action := LabelText(data)];
      RemoveSessionListeners(s);
      isListening := false;
      SaveChange(AttrName(s.action), data);
    }

    /** Unregisters one session's listeners, which leaves every OPTIONS_UPDATE subscriber in place. */
    method RemoveSessionListeners(s: Session)
      modifies bus
      ensures bus.regs == old(bus.regs) - multiset{KeyReg(s.id)} - multiset{MouseReg(s.id)}
      ensures bus.Subscribers(OptionsUpdate) == old(bus.Subscribers(OptionsUpdate))
      ensures bus.emitted == old(bus.emitted)
    {
      bus.RemoveListener(Reg(OptionsMenuOwner, DomKeydown, Handler.KeyListener(s.id), Normal));
      bus.RemoveListener(Reg(OptionsMenuOwner, DomMousedown, Handler.MouseListener(s.id), Normal));
      assert bus.Subscribers(OptionsUpdate) == old(bus.Subscribers(OptionsUpdate));
    }

    /**
     * The bus delivering one input to every pending session's listener,
     * oldest first; each conclusion retires its session.
     */
    method ConcludeAll(data: StoredValue)
      requires data.Binding?
      modifies this, bus
      ensures View() == ConcludeRun(old(View()), old(pending), data, old(bus.Subscribers(OptionsUpdate)))
      ensures pending == [] && nextSession == old(nextSession) && loadCompleted == old(loadCompleted)
    {
      ghost var subs := bus.Subscribers(OptionsUpdate);
      ghost var v0 := View();
      ghost var done: seq<Session> := [];
      var rest := pending;
      while rest != []
        invariant done + rest == old(pending)
        invariant View() == ConcludeRun(v0, done, data, subs)
        invariant bus.Subscribers(OptionsUpdate) == subs
        invariant pending == old(pending) && nextSession == old(nextSession) && loadCompleted == old(loadCompleted)
        decreases |rest|
      {
        var s := rest[0];
        ghost var vb := View();
        Conclude(s, data);
        ConcludeStepParts(vb, s, data, subs, View());
        ConcludeRunExtend(v0, done, s, data, subs);
        ShiftOne(done, rest);
        done := done + [s];
        rest := rest[1..];
      }
      assert done == old(pending);
      pending := [];
    }

    /** A key press: its code and key make the binding. */
    method OnKeyDown(code: string, key: string)
      modifies this, bus
      ensures labels == Relabel(old(labels), old(pending), KeyData(code, key))
      ensures store == SaveAll(old(store), old(pending), KeyData(code, key))
      ensures bus.regs == old(bus.regs) - SessionRegs(old(pending))
      ensures bus.emitted == old(bus.emitted) + SaveEmissions(old(store), old(pending), KeyData(code, key), old(bus.Subscribers(OptionsUpdate)))
      ensures pending == [] && isListening == (old(isListening) && old(pending) == [])
      ensures nextSession == old(nextSession) && loadCompleted == old(loadCompleted)
    {
      ghost var v0, subs := View(), bus.Subscribers(OptionsUpdate);
      ConcludeAll(Binding(code, key, false));
      ConcludeRunParts(v0, old(pending), KeyData(code, key), subs);
    }

    /** A mouse button: its number makes the binding. */
    method OnMouseDown(button: nat)
      modifies this, bus
      ensures labels == Relabel(old(labels), old(pending), MouseData(button))
      ensures store == SaveAll(old(store), old(pending), MouseData(button))
      ensures bus.regs == old(bus.regs) - SessionRegs(old(pending))
      ensures bus.emitted == old(bus.emitted) + SaveEmissions(old(store), old(pending), MouseData(button), old(bus.Subscribers(OptionsUpdate)))
      ensures pending == [] && isListening == (old(isListening) && old(pending) == [])
      ensures nextSession == old(nextSession) && loadCompleted == old(loadCompleted)
    {
      ghost var v0, subs := View(), bus.Subscribers(OptionsUpdate);
      ConcludeAll(Binding(DecimalText(button), DecimalText(button), true));
      ConcludeRunParts(v0, old(pending), MouseData(button), subs);
    }

    /** setOption for one control; false where the document has no entry for it. */
    method SetOption(a: Action, opts: Options) returns (ok: bool)
      modifies this
      ensures ok <==> AttrName(a) in opts
      ensures ok ==> labels == old(labels)[a := EntryLabel(opts[AttrName(a)])]
      ensures !ok ==> labels == old(labels)
      ensures isListening == old(isListening) && store == old(store)
      ensures pending == old(pending) && nextSession == old(nextSession) && loadCompleted == old(loadCompleted)
    {
      if AttrName(a) !in opts {
        return false;
      }
      labels := labels[a := EntryLabel(opts[AttrName(a)])];
      return true;
    }

    /**
     * loadValuesFromStorage: with nothing stored the labels stay; otherwise
     * the labels load in order and loading stops at the first missing entry.
     */
    method LoadValuesFromStorage() returns (completed: bool)
      modifies this
      ensures store.None? ==> labels == old(labels) && completed
      ensures store.Some? ==> (labels, completed) == LoadLabels(old(labels), store.value, LoadOrder)
      ensures isListening == old(isListening) && store == old(store)
      ensures pending == old(pending) && nextSession == old(nextSession) && loadCompleted == old(loadCompleted)
    {
      if store.None? {
        return true;
      }
      var opts := store.value;
      ghost var l0 := labels;
      assert LoadOrder[1..] == [Backward, Left, Right, Shoot];
      assert [Backward, Left, Right, Shoot][1..] == [Left, Right, Shoot];
      assert [Left, Right, Shoot][1..] == [Right, Shoot];
      assert [Right, Shoot][1..] == [Shoot];
      assert [Shoot][1..] == [];
      completed := SetOption(Forward, opts);
      if !completed { return; }
      completed := SetOption(Backward, opts);
      if !completed { return; }
      completed := SetOption(Left, opts);
      if !completed { return; }
      completed := SetOption(Right, opts);
      if !completed { return; }
      completed := SetOption(Shoot, opts);
    }
  }

  /** enable followed by disable leaves the bus and the DOM listeners as they were, and the menu not listening. */
  method EnableThenDisable(m: OptionsMenu)
    modifies m`isListening, m.bus, m.dom
    ensures m.bus.regs == old(m.bus.regs) && m.bus.emitted == old(m.bus.emitted)
    ensures m.dom.regs == old(m.dom.regs)
    ensures !m.isListening
  {
    m.Enable();
    m.Disable();
  }

  /**
   * One rebinding from rest: a click starts listening for a control, a key
   * press concludes it, and a later mouse press finds no session. The key is
   * shown and saved, the session's listeners are gone, and the mouse press
   * changes nothing.
   */
  method RebindByKey(m: OptionsMenu, a: Action, code: string, key: string, button: nat)
    requires m.pending == []
    modifies m, m.bus
    ensures m.pending == [] && !m.isListening
    ensures m.bus.regs == old(m.bus.regs)
    ensures m.labels == old(m.labels)[a := key]
    ensures m.store == Settings.SaveChange(old(m.store), AttrName(a), KeyData(code, key))
    ensures m.bus.emitted == old(m.bus.emitted) + UpdateEmission(m.store, old(m.bus.Subscribers(OptionsUpdate)))
  {
    var s := Session(m.nextSession, a);
    ghost var regs0, subs, l0, st0, e0 := m.bus.regs, m.bus.Subscribers(OptionsUpdate), m.labels, m.store, m.bus.emitted;
    var b := KeyData(code, key);
    ConcludeOneSession(st0, l0[a := "Listening..."], s, b, subs);
    ListenThenConcludeRestores(regs0, s);
    m.ListenForInput(a);
    assert m.pending == [s] && m.store == st0 && m.bus.emitted == e0;
    assert m.labels == l0[a := "Listening..."];
    assert m.bus.regs == regs0 + multiset{KeyReg(s.id), MouseReg(s.id)};
    assert m.bus.Subscribers(OptionsUpdate) == subs;
    m.OnKeyDown(code, key);
    assert m.bus.regs == regs0 && m.pending == [] && !m.isListening;
    assert m.store == Settings.SaveChange(st0, AttrName(a), b);
    assert m.labels == l0[a := key];
    assert m.bus.emitted == e0 + UpdateEmission(m.store, subs);
    m.OnMouseDown(button);
    assert SessionRegs([]) == multiset{};
  }
}
