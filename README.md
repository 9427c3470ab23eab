# Tanks client: event-driven components

Tanks is a browser game with a world editor. It is built from components that
attach and detach children. The components talk through a process-wide event
bus: `addListener`, `removeListener` and `callEvent` on an `Event`. This project
models the components that switch the client's modes, and proves what each
promises. The components are:

- the creation-tool handler and the mode toggle of the world editor's HUD;
- the singleplayer camera and the multiplayer camera;
- the arena handler, which attaches a singleplayer or multiplayer arena and
  opens and closes its game menu;
- the options menu, which rebinds keys and stores settings;
- the singleplayer game menu, in both its TypeScript and JavaScript versions;
- the game-status handler.

Shared modules:

- `EventBus` (bus.dfy): the bus as a multiset of registrations plus a log of
  emissions. Each emission records the registrations subscribed to its event
  at the moment `callEvent` ran. `DomEvents` is the DOM listener table.
- `Component` (component.dfy): a node's set of attached children.
- `CreateMode` (create_mode.dfy): the four editor modes and the toggle events
  that request them.
- `Settings` (settings.dfy): the stored options document and how its entries
  are shown.
- `ModeSync` (mode_sync.dfy): the editor's tool handler and HUD toggle
  listening on one bus.

Three components have a pure step function over the events they listen to:
`CreationTools.Step`, `Arena.Step` and `CameraModel.MenuStep`. Lemmas are
proved about each step function, and the class methods change the fields in
place and promise that the new state is the step of the old one. The other
components state their new state in other ways:

- `ModeToggleHud` ties its mode to `CreateMode.Follow`.
- `MultiplayerCameraModel` states the new child set directly, and the spawn
  target through `SpawnTarget`.
- `OptionsMenuModel` ties each handler to a pure function: `ClickEffect`,
  `Relabel`, `SaveAll`, `SaveEmissions`, `ConcludeRun` and `LoadLabels`.
- `GameStatus`, `SpGameMenu` and `SpGameMenuJs` state what each handler emits, through
  `StatusEvent` and `ClickEvent`.

## Model

| member | source | states |
|---|---|---|
| CreateMode.ToggleTarget | src/arena/tools/CreationToolHandler.ts:26-29 | a toggle event requests exactly the mode whose event it is; every other event requests no mode |
| CreateMode.FollowAllIsLastToggle | src/gui/ArenaCreateModeToggle.ts:84-102 | after any sequence of events, an observer of the toggle events holds the mode of the last toggle event, or its starting mode if there was none |
| CreationTools.ToolOf | src/arena/tools/CreationToolHandler.ts:85-97 | each mode owns at most one creation tool, CAMERA owns none, and BLOCK, GAMESPAWN and INITIALSPAWN own their own tool |
| CreationTools.RemoveTool | src/arena/tools/CreationToolHandler.ts:85-97 | among the tools only the current mode's tool is dropped, and every child that is not a tool is kept |
| CreationTools.StepFrame | src/arena/tools/CreationToolHandler.ts:42-83 | no event touches a child that is not a tool; the mode changes exactly on toggle events; "at most the current mode's tool is attached" is preserved |
| CreationTools.ToggleSelectsTool | src/arena/tools/CreationToolHandler.ts:62-83 | after a toggle to a mode, that mode is current and only its tool is attached (no tool for CAMERA) |
| CreationTools.ToggleToActiveMode | src/arena/tools/CreationToolHandler.ts:67-97 | toggling to the mode that is already active leaves the handler unchanged |
| CreationTools.MenuSuspendsTool | src/arena/tools/CreationToolHandler.ts:42-60 | opening the game menu detaches every tool and keeps the mode; closing it afterwards restores the handler exactly |
| CreationTools.ToggleDuringMenuAttaches | src/arena/tools/CreationToolHandler.ts:42-97 | a toggle that arrives while the game menu is open still selects the new mode and attaches its tool |
| CreationTools.CloseReattachesToggledTool | src/arena/tools/CreationToolHandler.ts:52-71 | the menu close after such a toggle attaches a tool that is already attached, and so changes nothing |
| CreationTools.RunKeepsInvariant | src/arena/tools/CreationToolHandler.ts:42-97 | over any event sequence, at most the current tool stays attached, non-tool children are kept, and the mode is the one the toggle events last requested |
| CreationTools.ListenerFor | src/arena/tools/CreationToolHandler.ts:22-30 | the handler listens to exactly the menu open and close events and the four toggle events, each with a registration its enable adds |
| CreationTools.CreationToolHandler.constructor | src/arena/tools/CreationToolHandler.ts:14-20 | a new handler is in CAMERA mode with no tool attached |
| CreationTools.CreationToolHandler.Enable | src/arena/tools/CreationToolHandler.ts:22-30 | adds the six registrations and emits nothing |
| CreationTools.CreationToolHandler.Disable | src/arena/tools/CreationToolHandler.ts:32-40 | removes the six registrations and emits nothing |
| CreationTools.CreationToolHandler.RemoveTool | src/arena/tools/CreationToolHandler.ts:85-97 | detaches the current mode's tool and nothing else |
| CreationTools.CreationToolHandler.OnGameMenuOpen | src/arena/tools/CreationToolHandler.ts:42-50 | the new state is the step for a menu open |
| CreationTools.CreationToolHandler.OnGameMenuClose | src/arena/tools/CreationToolHandler.ts:52-60 | the new state is the step for a menu close |
| CreationTools.CreationToolHandler.OnToggleToCamera | src/arena/tools/CreationToolHandler.ts:62-65 | the new state is the step for the camera toggle |
| CreationTools.CreationToolHandler.OnToggleToBlock | src/arena/tools/CreationToolHandler.ts:67-71 | the new state is the step for the block toggle |
| CreationTools.CreationToolHandler.OnToggleToGameSpawn | src/arena/tools/CreationToolHandler.ts:73-77 | the new state is the step for the game-spawn toggle |
| CreationTools.CreationToolHandler.OnToggleToInitialSpawn | src/arena/tools/CreationToolHandler.ts:79-83 | the new state is the step for the initial-spawn toggle |
| CreationTools.EnableThenDisable | src/arena/tools/CreationToolHandler.ts:22-40 | enable followed by disable leaves the bus's registrations and log as they were |
| CreationTools.CreationToolHandler.Receive | src/arena/tools/CreationToolHandler.ts:22-30 | an event changes the handler only while the handler's listener for it is registered; it then changes it by one step |
| ModeToggleHud.ClickRequest | src/gui/ArenaCreateModeToggle.ts:52-70 | a click requests a mode exactly when it lands on a mode button other than the active one, and it requests that button's mode |
| ModeToggleHud.KeyRequest | src/gui/ArenaCreateModeToggle.ts:72-82 | KeyB requests BLOCK unless BLOCK is active, KeyC requests CAMERA unless CAMERA is active, and nothing else requests anything |
| ModeToggleHud.RequestChangesMode | src/gui/ArenaCreateModeToggle.ts:52-102 | every request the HUD emits moves a follower of the toggle events to a mode other than the active one |
| ModeToggleHud.ToggleListenerSubscribed | src/gui/ArenaCreateModeToggle.ts:27-34 | enable registers a listener for every toggle event |
| ModeToggleHud.ArenaCreateModeToggle.constructor | src/gui/ArenaCreateModeToggle.ts:15-25 | starts in CAMERA mode with the highlights the markup gives |
| ModeToggleHud.ArenaCreateModeToggle.Enable | src/gui/ArenaCreateModeToggle.ts:27-39 | adds the HUD's registrations, keeps the mode, and leaves exactly the active mode's button highlighted |
| ModeToggleHud.ArenaCreateModeToggle.AddListeners | src/gui/ArenaCreateModeToggle.ts:28-34 | adds the HUD's registrations and emits nothing |
| ModeToggleHud.ArenaCreateModeToggle.Disable | src/gui/ArenaCreateModeToggle.ts:41-50 | removes the HUD's registrations and emits nothing |
| ModeToggleHud.ArenaCreateModeToggle.OnClick | src/gui/ArenaCreateModeToggle.ts:52-70 | emits the click's request, if any, to the subscribers of that moment, and does not change the mode itself |
| ModeToggleHud.ArenaCreateModeToggle.OnKeyDown | src/gui/ArenaCreateModeToggle.ts:72-82 | emits the key's request, if any, and does not change the mode itself |
| ModeToggleHud.ArenaCreateModeToggle.OnToggleCamera | src/gui/ArenaCreateModeToggle.ts:84-87 | CAMERA becomes the mode and only its button is highlighted |
| ModeToggleHud.ArenaCreateModeToggle.OnToggleBlock | src/gui/ArenaCreateModeToggle.ts:89-92 | BLOCK becomes the mode and only its button is highlighted |
| ModeToggleHud.ArenaCreateModeToggle.OnToggleGameSpawn | src/gui/ArenaCreateModeToggle.ts:94-97 | GAMESPAWN becomes the mode and only its button is highlighted |
| ModeToggleHud.ArenaCreateModeToggle.OnToggleInitialSpawn | src/gui/ArenaCreateModeToggle.ts:99-102 | INITIALSPAWN becomes the mode and only its button is highlighted |
| ModeToggleHud.ArenaCreateModeToggle.UpdateHtmlClasses | src/gui/ArenaCreateModeToggle.ts:104-135 | after the update, a button is highlighted exactly when its mode is active |
| ModeToggleHud.ArenaCreateModeToggle.Receive | src/gui/ArenaCreateModeToggle.ts:27-34 | a toggle event whose listener is registered sets the requested mode and its highlight; any other event changes nothing |
| ModeSync.Deliver | src/arena/tools/CreationToolHandler.ts:26-29 | when both components are enabled on one bus and agree on the mode, delivering an event keeps them agreeing, both follow the toggle events, and at most the current tool stays attached |
| ModeSync.DeliverAll | src/arena/tools/CreationToolHandler.ts:26-29 | over any sequence of events delivered to both components, they agree on the mode after every event, that mode is the last toggle's, and at most the current tool stays attached |
| ModeSync.Click | src/gui/ArenaCreateModeToggle.ts:52-70 | a click on a mode button, once its request is delivered, makes that mode current in both components and attaches its tool; a click elsewhere keeps the mode |
| CameraModel.MenuStepFrame | src/arena/camera/Camera.ts:108-118 | the menu events never change whether controls are enabled; while disabled they change nothing; while enabled, open detaches the controls and close attaches them |
| CameraModel.NestedOpenRestores | src/arena/camera/Camera.ts:108-118 | a second open changes nothing, and one close after two opens gives the controls back |
| CameraModel.MenuCyclesRestore | src/arena/camera/Camera.ts:108-118 | any number of open/close cycles returns enabled, attached controls to the same state |
| CameraModel.MenuRunKeepsFlag | src/arena/camera/Camera.ts:108-118 | no sequence of menu events changes the enabled flag |
| CameraModel.Camera.constructor | src/arena/camera/Camera.ts:17-26 | controls start enabled, with the given spherical and the origin as target |
| CameraModel.Camera.Enable | src/arena/camera/Camera.ts:28-37 | adds the camera's registrations and emits nothing |
| CameraModel.Camera.Disable | src/arena/camera/Camera.ts:39-48 | removes the camera's registrations and emits nothing |
| CameraModel.Camera.AttachControls | src/arena/camera/Camera.ts:50-55 | attaches the controls; they become enabled only when asked to update the status |
| CameraModel.Camera.DetachControls | src/arena/camera/Camera.ts:57-62 | detaches the controls; they become disabled only when asked to update the status |
| CameraModel.Camera.OnControlsUpdate | src/arena/camera/Camera.ts:64-71 | the camera follows the spherical the controls reported and changes nothing else |
| CameraModel.Camera.OnGameMenuOpen | src/arena/camera/Camera.ts:108-112 | the controls change by the open step, other children and the followed position are kept |
| CameraModel.Camera.OnGameMenuClose | src/arena/camera/Camera.ts:114-118 | the controls change by the close step, other children and the followed position are kept |
| CameraModel.EnableThenDisable | src/arena/camera/Camera.ts:28-48 | enable followed by disable leaves the bus's registrations and log as they were |
| MultiplayerCameraModel.CloseBoundToRequest | src/arena/camera/multiplayer/MultiplayerCamera.ts:20-28 | the controls come back on the close request, not on the close event itself, and resize runs at low priority |
| MultiplayerCameraModel.MultiplayerCamera.constructor | src/arena/camera/multiplayer/MultiplayerCamera.ts:13-18 | a new camera has no children and the controls' given target and spherical |
| MultiplayerCameraModel.MultiplayerCamera.Enable | src/arena/camera/multiplayer/MultiplayerCamera.ts:20-28 | adds the four registrations and leaves the controls attached |
| MultiplayerCameraModel.MultiplayerCamera.Disable | src/arena/camera/multiplayer/MultiplayerCamera.ts:30-38 | removes the four registrations and leaves the controls detached |
| MultiplayerCameraModel.MultiplayerCamera.OnGameMenuOpen | src/arena/camera/multiplayer/MultiplayerCamera.ts:46-48 | detaches the controls |
| MultiplayerCameraModel.MultiplayerCamera.OnGameMenuClose | src/arena/camera/multiplayer/MultiplayerCamera.ts:50-52 | attaches the controls |
| MultiplayerCameraModel.MultiplayerCamera.AttachControls | src/arena/camera/multiplayer/MultiplayerCamera.ts:54-56 | attaches the controls and nothing else |
| MultiplayerCameraModel.MultiplayerCamera.DetachControls | src/arena/camera/multiplayer/MultiplayerCamera.ts:58-60 | detaches the controls and nothing else |
| MultiplayerCameraModel.MultiplayerCamera.OnArenaSceneUpdate | src/arena/camera/multiplayer/MultiplayerCamera.ts:62-66 | the controls aim at the spawn block's centre, half a block in on x and z, at height 0, from the spawn spherical |
| Arena.MenuChild | js/arena/ArenaHandler.js:133-149 | the game menu is the singleplayer one exactly in a singleplayer arena |
| Arena.StepKeepsMenuConsistent | js/arena/ArenaHandler.js:63-149 | every reachable operation keeps the menu consistent: the flag matches the attached menu, the other kind's menu is never attached, and the menu is open only with a scene |
| Arena.DetachClosesMenu | js/arena/ArenaHandler.js:75-115 | detaching either arena closes its game menu and removes the scene and both menus |
| Arena.AttachThenDetach | js/arena/ArenaHandler.js:63-97 | attaching an arena and then detaching it gives back the children there were before |
| Arena.EscapeTwiceRestores | js/arena/ArenaHandler.js:117-125 | Escape with the menu closed opens it, and a second Escape restores the handler exactly |
| Arena.BlurOpensMenu | js/arena/ArenaHandler.js:127-131 | losing focus always leaves the menu open, and does nothing if it was open already |
| Arena.RunKeepsMenuConsistent | js/arena/ArenaHandler.js:39-149 | over any reachable sequence of operations the menu stays consistent |
| Arena.AttachOverOpenMenuBreaksConsistency | js/arena/ArenaHandler.js:63-104 | an attach while a multiplayer arena with an open menu is attached is not reachable, and it would break the menu invariant |
| Arena.SubscriptionsRoute | js/arena/ArenaHandler.js:39-49 | the create and load world clicks attach a singleplayer arena, both disconnect events detach a multiplayer one, and each registration is added once |
| Arena.ArenaHandler.constructor | js/arena/ArenaHandler.js:17-37 | starts multiplayer-flagged, with the menu closed and no children |
| Arena.ArenaHandler.Enable | js/arena/ArenaHandler.js:39-49 | adds the handler's registrations and emits nothing |
| Arena.ArenaHandler.Disable | js/arena/ArenaHandler.js:51-61 | removes the handler's registrations and emits nothing |
| Arena.ArenaHandler.OpenGameMenu | js/arena/ArenaHandler.js:142-149 | opens the current kind's game menu |
| Arena.ArenaHandler.CloseGameMenu | js/arena/ArenaHandler.js:133-140 | closes the current kind's game menu |
| Arena.ArenaHandler.AttachArena | js/arena/ArenaHandler.js:99-104 | attaches the scene and adds the key, blur and close listeners |
| Arena.ArenaHandler.DetachArena | js/arena/ArenaHandler.js:106-115 | removes those listeners, detaches the scene, and closes the menu if it is open |
| Arena.ArenaHandler.AttachSingleplayerArena | js/arena/ArenaHandler.js:63-73 | takes the singleplayer attach step and announces the loaded world to the scene-update subscribers |
| Arena.ArenaHandler.DetachSingleplayerArena | js/arena/ArenaHandler.js:75-81 | takes the singleplayer detach step and removes the arena listeners |
| Arena.ArenaHandler.AttachMultiplayerArena | js/arena/ArenaHandler.js:83-90 | takes the multiplayer attach step and adds the arena listeners |
| Arena.ArenaHandler.DetachMultiplayerArena | js/arena/ArenaHandler.js:92-97 | takes the multiplayer detach step and removes the arena listeners |
| Arena.ArenaHandler.AttachSingleplayerChildren | js/arena/ArenaHandler.js:66-68 | attaches the singleplayer GUI, camera and creation tools |
| Arena.ArenaHandler.DetachSingleplayerChildren | js/arena/ArenaHandler.js:78-80 | detaches the singleplayer GUI, camera and creation tools |
| Arena.ArenaHandler.AttachMultiplayerChildren | js/arena/ArenaHandler.js:86-87 | attaches the multiplayer GUI and camera |
| Arena.ArenaHandler.DetachMultiplayerChildren | js/arena/ArenaHandler.js:95-96 | detaches the multiplayer GUI and camera |
| Arena.ArenaHandler.OnKeyDown | js/arena/ArenaHandler.js:117-125 | Escape with the menu open emits a close request, and the handler's own close listener closes the menu; Escape with the menu closed opens it; other keys do nothing |
| Arena.ArenaHandler.OnBlur | js/arena/ArenaHandler.js:127-131 | takes the blur step |
| Arena.EnableThenDisable | js/arena/ArenaHandler.js:39-61 | enable followed by disable leaves the bus's registrations and log as they were |
| Settings.DecimalText | src/main_menu/OptionsMenu.ts:156-164 | a mouse button number is written as decimal digits with no leading zero, and the digits denote the number |
| Settings.DecimalTextInjective | src/main_menu/OptionsMenu.ts:156-170 | distinct mouse buttons are written differently |
| Settings.SaveChange | src/main_menu/OptionsMenu.ts:217-225 | with a stored document, the attribute is set to the new value and every other entry is kept; with none, nothing is saved |
| Settings.EntryLabel | src/main_menu/OptionsMenu.ts:191-197 | a key binding is shown by its key text; a number entry shows nothing |
| Settings.StoredLabel | src/main_menu/OptionsMenu.ts:191-197 | an attribute has a label exactly when the document has an entry for it |
| Settings.SavedBindingReloads | src/main_menu/OptionsMenu.ts:186-225 | a binding that was saved is shown with its key text when the options are next loaded |
| Settings.SaveKeepsOtherLabels | src/main_menu/OptionsMenu.ts:217-225 | saving one attribute does not change how any other attribute is shown |
| OptionsMenuModel.AttrName | src/main_menu/OptionsMenu.ts:203-207 | no binding is stored under the volume or mouse-sensitivity name |
| OptionsMenuModel.AttrNameInjective | src/main_menu/OptionsMenu.ts:203-207 | distinct actions are stored under distinct names |
| OptionsMenuModel.ClickHandler | src/main_menu/OptionsMenu.ts:41-53 | no binding label uses the return button's handler |
| OptionsMenuModel.ClickHandlerInjective | src/main_menu/OptionsMenu.ts:41-53 | distinct actions have distinct click handlers |
| OptionsMenuModel.EveryLabelSubscribed | src/main_menu/OptionsMenu.ts:41-53 | enable registers a click handler for each of the five bindings and for the return button, six in all |
| OptionsMenuModel.ClickEffect | src/main_menu/OptionsMenu.ts:71-127 | a click on a binding label starts listening for that binding, and a click on return asks to return; both happen only while the menu is not already listening |
| OptionsMenuModel.KeyData | src/main_menu/OptionsMenu.ts:147-154 | a key press becomes a keyboard binding with its code and key, and it is shown by its key |
| OptionsMenuModel.MouseData | src/main_menu/OptionsMenu.ts:156-164 | a mouse press becomes a mouse binding whose code and key are the button number, and it is shown as "Mouse" and the number |
| OptionsMenuModel.SessionRegs | src/main_menu/OptionsMenu.ts:179-181 | each pending rebinding holds exactly two listeners |
| OptionsMenuModel.SaveAll | src/main_menu/OptionsMenu.ts:217-225 | saving for every pending rebinding leaves a document exactly when there was one |
| OptionsMenuModel.UpdateEmission | src/main_menu/OptionsMenu.ts:217-225 | a save announces the new options once when there is a document, and not at all otherwise |
| OptionsMenuModel.RelabelShowsInput | src/main_menu/OptionsMenu.ts:166-171 | every binding that was waiting for input now shows the input's text; every other label is kept |
| OptionsMenuModel.SaveAllStoresBinding | src/main_menu/OptionsMenu.ts:217-225 | every waiting binding is stored as the input, and every other stored entry is kept |
| OptionsMenuModel.SaveEmissionsCount | src/main_menu/OptionsMenu.ts:217-225 | one options update is announced per concluded rebinding, the last one carrying the final document; none without a document |
| OptionsMenuModel.ConcludeStepParts | src/main_menu/OptionsMenu.ts:166-177 | concluding one rebinding is exactly: relabel, save, drop its two listeners, announce, stop listening |
| OptionsMenuModel.ConcludeRunLabels | src/main_menu/OptionsMenu.ts:166-177 | concluding every pending rebinding relabels exactly the waiting bindings |
| OptionsMenuModel.ConcludeRunStore | src/main_menu/OptionsMenu.ts:166-177 | concluding every pending rebinding stores the input for each of them |
| OptionsMenuModel.ConcludeRunRegs | src/main_menu/OptionsMenu.ts:166-177 | concluding every pending rebinding removes exactly their listeners |
| OptionsMenuModel.ConcludeRunEmitted | src/main_menu/OptionsMenu.ts:166-177 | concluding every pending rebinding announces one options update each |
| OptionsMenuModel.ConcludeRunParts | src/main_menu/OptionsMenu.ts:166-177 | the labels, store, listeners and log after concluding all pending rebindings; listening stops unless none was pending |
| OptionsMenuModel.ListenThenConcludeRestores | src/main_menu/OptionsMenu.ts:173-181 | the listeners one rebinding adds are exactly those its conclusion removes |
| OptionsMenuModel.ConcludeOneSession | src/main_menu/OptionsMenu.ts:147-181 | concluding a single rebinding relabels and saves just its control and announces the document once |
| OptionsMenuModel.RebindByKey | src/main_menu/OptionsMenu.ts:141-184 | from rest, a rebinding concluded by a key press shows and saves that key, announces the document once, leaves the listener registry as it was and stops listening; a later mouse press changes nothing |
| OptionsMenuModel.LoadLabelsComplete | src/main_menu/OptionsMenu.ts:186-207 | loading completes exactly when every binding is stored, and then every binding shows its stored entry |
| OptionsMenuModel.LoadKeepsUnlisted | src/main_menu/OptionsMenu.ts:203-207 | loading never changes the label of a binding it does not load |
| OptionsMenuModel.OptionsMenu.constructor | src/main_menu/OptionsMenu.ts:21-39 | starts not listening, with the stored options and, when there are some, the labels loaded from them; records whether the load found every binding |
| OptionsMenuModel.OptionsMenu.Enable | src/main_menu/OptionsMenu.ts:41-53 | adds the six click registrations and the two slider change listeners |
| OptionsMenuModel.OptionsMenu.AddClickListeners | src/main_menu/OptionsMenu.ts:42-47 | adds the six click registrations and emits nothing |
| OptionsMenuModel.OptionsMenu.Disable | src/main_menu/OptionsMenu.ts:55-69 | removes the click and change listeners and stops listening |
| OptionsMenuModel.OptionsMenu.RemoveListeners | src/main_menu/OptionsMenu.ts:56-64 | removes the click and change listeners and emits nothing |
| OptionsMenuModel.OptionsMenu.RemoveClickListeners | src/main_menu/OptionsMenu.ts:56-61 | removes the six click registrations |
| OptionsMenuModel.OptionsMenu.RemoveChangeListeners | src/main_menu/OptionsMenu.ts:63-64 | removes the two slider change listeners |
| OptionsMenuModel.OptionsMenu.SaveChange | src/main_menu/OptionsMenu.ts:217-225 | stores the value under the attribute and announces the new options when there is a document |
| OptionsMenuModel.OptionsMenu.HandleVolumeChange | src/main_menu/OptionsMenu.ts:129-132 | stores the slider value as the volume |
| OptionsMenuModel.OptionsMenu.HandleMouseChange | src/main_menu/OptionsMenu.ts:134-137 | stores the slider value as the mouse sensitivity |
| OptionsMenuModel.OptionsMenu.ListenForInput | src/main_menu/OptionsMenu.ts:141-184 | the binding shows "Listening...", the menu listens, and a rebinding with fresh key and mouse listeners is pending |
| OptionsMenuModel.OptionsMenu.HandleBindingClick | src/main_menu/OptionsMenu.ts:71-119 | a click on the binding's own label while not listening starts a rebinding of it; anything else changes nothing |
| OptionsMenuModel.OptionsMenu.HandleReturnClick | src/main_menu/OptionsMenu.ts:121-127 | a click on return while not listening emits the return request; anything else emits nothing |
| OptionsMenuModel.OptionsMenu.DeliverClick | src/main_menu/OptionsMenu.ts:71-127 | while the menu's six click listeners are registered, a click has exactly the effect `ClickEffect` gives it; otherwise the click changes nothing |
| OptionsMenuModel.OptionsMenu.Conclude | src/main_menu/OptionsMenu.ts:166-177 | the binding shows the input, its two listeners go, listening stops, and the input is saved and announced |
| OptionsMenuModel.OptionsMenu.RemoveSessionListeners | src/main_menu/OptionsMenu.ts:173-174 | removes one rebinding's key and mouse listeners |
| OptionsMenuModel.OptionsMenu.ConcludeAll | src/main_menu/OptionsMenu.ts:166-177 | concludes every pending rebinding in order with the same input |
| OptionsMenuModel.OptionsMenu.OnKeyDown | src/main_menu/OptionsMenu.ts:147-154 | a key press rebinds every waiting binding to that key, saves and announces it, and removes their listeners |
| OptionsMenuModel.OptionsMenu.OnMouseDown | src/main_menu/OptionsMenu.ts:156-164 | a mouse press rebinds every waiting binding to that button, saves and announces it, and removes their listeners |
| OptionsMenuModel.OptionsMenu.SetOption | src/main_menu/OptionsMenu.ts:191-197 | an entry that is stored sets the label; one that is missing fails and changes nothing |
| OptionsMenuModel.OptionsMenu.LoadValuesFromStorage | src/main_menu/OptionsMenu.ts:186-215 | loads the labels in the source's order, stopping at the first missing entry; without a document nothing changes |
| OptionsMenuModel.EnableThenDisable | src/main_menu/OptionsMenu.ts:41-69 | enable followed by disable leaves the bus and the DOM listeners as they were, and the menu not listening |
| SpGameMenu.ClickEvent | src/game_menu/SingleplayerGameMenu.ts:33-41 | cancel requests closing the menu, save requests a save, return requests the main menu, and any other target requests nothing |
| SpGameMenu.SingleplayerGameMenu.Enable | src/game_menu/SingleplayerGameMenu.ts:21-25 | adds the click registration and emits nothing |
| SpGameMenu.SingleplayerGameMenu.Disable | src/game_menu/SingleplayerGameMenu.ts:27-31 | removes the click registration |
| SpGameMenu.SingleplayerGameMenu.HandleClick | src/game_menu/SingleplayerGameMenu.ts:33-41 | emits the click's request, if any |
| SpGameMenuJs.SingleplayerGameMenu.Enable | js/game_menu/SingleplayerGameMenu.js:15-21 | announces that the game menu opened, then adds the click registration |
| SpGameMenuJs.SingleplayerGameMenu.Disable | js/game_menu/SingleplayerGameMenu.js:23-27 | removes the click registration |
| SpGameMenuJs.SingleplayerGameMenu.HandleClick | js/game_menu/SingleplayerGameMenu.js:29-37 | emits the click's request, if any |
| GameStatus.StatusEvent | src/GameStatusHandler.ts:19-34 | the four statuses WAITING, PREPARING, RUNNING and FINISHING each map to their own event, and no other number maps to any |
| GameStatus.StatusEventInjective | src/GameStatusHandler.ts:19-42 | distinct statuses never announce the same event |
| GameStatus.GameStatusHandler.Enable | src/GameStatusHandler.ts:10-12 | adds the status-update registration |
| GameStatus.GameStatusHandler.Disable | src/GameStatusHandler.ts:14-17 | removes the status-update registration |
| GameStatus.GameStatusHandler.OnGameStatusUpdate | src/GameStatusHandler.ts:19-34 | announces the status's event to its current subscribers; an unknown status announces nothing |

## Left out

- The event bus itself (`EventHandler`) and `ChildComponent` are not part of this model. Registrations are a multiset, and a `callEvent` is recorded together with the set of registrations it reaches. Priority order and the order of delivery among subscribers are not modelled; the listening level is kept only as a tag.
- OptionsMenuModel.OptionsMenu.ConcludeAll: pending rebindings are concluded in the order they started. The bus's real delivery order is not part of this model.
- Children are opaque. Attaching or detaching a child does not run that child's own enable or disable. Detaching a child that is not attached does nothing. Nothing checks that the real `ChildComponent` behaves this way.
- CreationTools.CreationToolHandler.OnGameMenuClose: attaching a child that is already attached does nothing here. This happens when a toggle arrives while the game menu is open: the toggle attaches the new tool, and the following close attaches it again (`CreationTools.CloseReattachesToggledTool`). What a second attach does in the real `ChildComponent` is not modelled.
- The DOM is not modelled: display styles, elements and `event.target` identity. The mode buttons' `create-world-toggle-enabled` class is a boolean per mode button. A label's `textContent` is a string value in a map.
- OptionsMenuModel.OptionsMenu.ListenForInput, Conclude: the `active` class a label carries while it waits for input is not modelled. Only its text ("Listening...", then the input) is.
- `localStorage` and JSON are not modelled. The stored document is an optional map from attribute name to value.
- Mouse button numbers are stored as decimal text instead of numbers.
- `Number()` parsing of a slider's value is not modelled; the parsed value is a `real` parameter.
- `setRangeValue`, which shows the sliders, is not modelled.
- For a missing entry, `loadValuesFromStorage` throws a `TypeError`. The model stops loading at that entry and reports that it did not complete.
- OptionsMenuModel.OptionsMenu.constructor: when the load stops at a missing entry, the source's constructor throws and no menu exists. The model still builds the menu, with the labels loaded so far, and records `loadCompleted == false`.
- OptionsMenuModel.OptionsMenu.OnKeyDown, OnMouseDown: the promise from `listenForInput` resolves later in the source. The model saves as soon as the input arrives.
- Geometric and three.js behaviour is not modelled: `onPan`, `onResize`, camera aspect, `setFromSpherical`, `lookAt` and `controls.update`. A spherical is an opaque triple.
- The spawn spherical, `Spherical(25, π/4, π)` in the source, is a constructor parameter because π is not a finite real.
- Arena.ArenaHandler.OnKeyDown: an Escape with the menu open reaches the handler's own close listener. No other subscriber to the close request is modelled.
- Arena.RunKeepsMenuConsistent, Arena.StepKeepsMenuConsistent: proved only for runs where an arena is attached while no scene is attached. The attach listeners stay registered for the handler's whole life. The assumption is that the menus that emit the attach requests are shown only while no arena is. Those menus are not part of this model. `Arena.AttachOverOpenMenuBreaksConsistency` shows that the invariant fails without the assumption.
- GameStatus.StatusEvent: the status is an integer. A non-integer status is not representable, though it would announce nothing in the source.
- `ArenaHandler.js` registers with no owner (`addListener(event, handler)`). It is modelled with the owner `NoOwner`. The JavaScript singleplayer game menu passes itself as the owner, and is modelled with `SpGameMenuOwner`.
- The warning `loadValuesFromStorage` logs when no options are stored (src/main_menu/OptionsMenu.ts:213) is not modelled.
- The disconnected screen and the other menus are out of scope.
