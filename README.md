# python-tcod-tutorial-2023 game kernel in Dafny

A model of the game kernel of the python-tcod roguelike tutorial (2023). This is the part that sits between tcod's input and display backend and the tcod.ecs entity store:

- **StateTools.** The state-stack interpreter: `Push`, `Pop`, `Rebase` and `None` applied to the global stack of states, and the main loop, which hands each event to the state on top until the stack is empty.
- **Menus and States.ListMenu.** The two list-menu selection state machines: the newer `ListMenu` with `SelectItem`, and the older `ListMenu` with the main menu built on it.
- **States.** The in-game step. A direction key moves the player, then every gold pile on the player's new cell is picked up into the player's purse and cleared.
- **Ecs and Components.** An abstract entity store (`Ecs.Registry`) covering components, tags, `all_of` queries and `clear`. It includes the callback that mirrors every Position component as a tag.
- **GameMessage and MessageTools.** The run-length-compressed message log. A report is compared with the last entry's rendered text.
- **Rendering.** The clamped scroll position of the log renderer.
- **WorldTools.** Generation of a new world.
- **Constants.** The direction-key table.
- **ExampleMain.** The tutorial's first hard-coded mover.

Modules follow the program's files:

| Module | File | What it holds |
|---|---|---|
| `Wrappers` | (none) | `Option` |
| `Events` | (none) | The tcod events and key symbols the game reacts to. |
| `State` | `game/state.py` | `StateResult`, plus `Reply`, which adds an `Exit` outcome where the source raises `SystemExit`. |
| `StateTools` | `game/state_tools.py` | Class `StateStack`. |
| `Constants` | `game/constants.py` | The key table. |
| `Components` | `game/components.py` | (see above) |
| `GameMessage` | `game/message.py` | (see above) |
| `MessageTools` | `game/message_tools.py` | (see above) |
| `Rendering` | `game/rendering.py` | Class `LogRenderer`. |
| `PyRandom` | (none) | A stand-in for `random.Random`. |
| `Ecs` | (none) | The store, modelled abstractly: each entity is a record of optional components plus a tag set. Class `Registry`. |
| `WorldTools` | `game/world_tools.py` | (see above) |
| `Menus` | `game/menus.py` | (see above) |
| `States` | `game/states.py` | (see above) |
| `ExampleMain` | `main.py` | (see above) |

Classes model the objects whose fields the source updates in place:

- `StateStack.states` stands for `g.states`.
- `ListMenu.selected` is the menu selection.
- `LogRenderer.yPosition` is the scroll position.
- `Registry.entities` is the store.
- `Globals.world` stands for `g.world`.
- `ExampleState.playerX` and `playerY` hold the player's position.

Each method's `ensures` ties the new state to a pure function, and the lemmas prove the properties about those functions.

Run-length compression might be expected to merge three identical reports of "Hello" into one entry with count 3. `report` does not do that. The code compares the new text with the last entry's *rendered* text, and after the second report that text is "Hello (x2)". The third "Hello" therefore starts a new entry. The model follows the code: `MessageTools.HelloThreeTimes` proves the result `[Message("Hello", 2), Message("Hello", 1)]`, and `MessageTools.RenderedTextAbsorbed` shows which text *would* be absorbed.

## Model

| member | source | states |
|---|---|---|
| StateTools.Applied | game/state_tools.py:21-33 | the stack after one transition: a pushed or rebased state is the new top, and the stack becomes empty only when its last state pops (or it was empty and nothing happens); its laws are `PushOnTop`, `PopDropsTop`, `PushThenPop` and `RebaseSingle` |
| StateTools.PushOnTop | game/state_tools.py:24-25 | Push appends the state as the new top; the stack grows by one and earlier entries are unchanged |
| StateTools.PopDropsTop | game/state_tools.py:26-27 | Pop on a non-empty stack removes exactly the top entry |
| StateTools.PushThenPop | game/state_tools.py:24-27 | Push followed by Pop restores the original stack |
| StateTools.RebaseSingle | game/state_tools.py:28-31 | Rebase leaves exactly the one new state, whatever the prior depth, including an empty stack |
| StateTools.StateStack.ApplyStateResult | game/state_tools.py:21-35 | the new stack is the transition applied to the old one; Pop demands a non-empty stack; the Rebase pop loop and recursion terminate |
| StateTools.Run | game/state_tools.py:38-45 | the reference run of the main loop over a finite event sequence; it exits only after dispatching an event; its properties are `RunDispatchesPrefix`, `FirstEventToTop`, `RunFromEmpty`, `RunSplits` and `EventsAfterEmptyIgnored` |
| StateTools.StateStack.MainLoop | game/state_tools.py:38-45 | the loop's stack, dispatch record and exit flag are those of the run over the events |
| StateTools.StateStack.Dispatch | game/state_tools.py:44-45 | one turn: the top state handles the event, its updated self replaces it and its transition is applied, unless it exits |
| StateTools.RunDispatchesPrefix | game/state_tools.py:38-45 | events are dispatched in order; events are left over only after an exit or once the stack is empty |
| StateTools.FirstEventToTop | game/state_tools.py:44-45 | an event goes to the top state of the stack |
| StateTools.RunFromEmpty | game/state_tools.py:40 | with an empty stack nothing is dispatched |
| StateTools.RunSplits | game/state_tools.py:38-45 | running over two batches of events is running over the first, then the second from where it stopped |
| StateTools.EventsAfterEmptyIgnored | game/state_tools.py:40-45 | events after the stack empties are not dispatched and change nothing |
| Constants.Direction | game/constants.py:9-38 | every vector has coordinates in {-1, 0, 1} and none is (0, 0) |
| Constants.KeyFor | game/constants.py:10-37 | each unit step has a key in each of the three key groups that maps to it |
| Constants.KeysPerStep | game/constants.py:10-37 | a key is in the table exactly when it belongs to a key group, and it is that group's key for its step |
| Constants.ThreeKeysPerStep | game/constants.py:10-37 | each of the eight directions is produced by exactly three keys: one navigation, one keypad, one vi key |
| Constants.ArrowSteps | game/constants.py:11-14 | y grows downward: UP (0,-1), DOWN (0,1), LEFT (-1,0), RIGHT (1,0) |
| Constants.VerticalKeys | game/constants.py:9-38 | exactly six keys are purely vertical (UP, DOWN, KP_8, KP_2, k, j), each with dy = ±1 |
| Components.Position.Add | game/components.py:18-21 | the sum differs from the position by exactly the vector |
| Components.AddThenSubtract | game/components.py:18-21 | adding a vector and then its opposite gives back the position |
| Components.AddTwice | game/components.py:18-21 | adding two vectors in turn is adding their sum |
| Components.OnPositionChanged | game/components.py:24-32 | equal old and new leave the tags alone; otherwise the old position tag goes and the new one comes; no other tag changes |
| Components.MirrorPreserved | game/components.py:24-32 | if the tags mirrored the old Position they mirror the new one (also when the component is removed) |
| Components.MoveRetags | game/components.py:29-32 | moving from p to q tags the entity q and not p, and touches no other tag |
| GameMessage.Decimal | game/message.py:21 | the decimal rendering of a count is non-empty, all digits, with no leading zero |
| GameMessage.DecimalRoundTrip | game/message.py:21 | reading the rendered digits back gives the count |
| GameMessage.DecimalInjective | game/message.py:21 | different counts render differently |
| GameMessage.Message.Text | game/message.py:17-22 | raw text is a prefix of the text; the text is longer exactly when count > 1, and then the rest is " (x" + count + ")" |
| GameMessage.RepeatedTextDiffers | game/message.py:20-21 | a repeated message never renders as its raw text |
| GameMessage.TextDeterminesCount | game/message.py:20-22 | two repeated messages with the same raw text render alike only when their counts agree |
| MessageTools.Reported | game/message_tools.py:15-21 | the log after one report: it either gains exactly `Message(text, 1)` at the end or keeps its length with the last count raised by one; its laws are `ReportShape`, `ReportCounts` and `ReportsTotal` |
| MessageTools.ReportShape | game/message_tools.py:15-21 | a report either raises the last entry's count by one, keeping length and other entries, or appends one Message(text, 1) |
| MessageTools.ReportCounts | game/message_tools.py:17-21 | every report adds exactly one to the total count, keeps all counts at least 1 and never shortens the log |
| MessageTools.ReportsTotal | game/message_tools.py:15-21 | a log built by n reports has total count n |
| MessageTools.HelloThreeTimes | game/message_tools.py:18-19 | "Hello" reported three times gives [Hello x2, Hello x1], and the first renders "Hello (x2)" |
| MessageTools.HelloWorldHello | game/message_tools.py:18-21 | "Hello", "World", "Hello" gives three entries |
| MessageTools.RenderedTextAbsorbed | game/message_tools.py:18 | reporting a repeated message's rendered text raises its count |
| MessageTools.GetLog | game/message_tools.py:10-12 | returns the world entity's log, installing the empty log when there is none |
| MessageTools.Report | game/message_tools.py:15-21 | the world entity's log becomes the reported log |
| Rendering.LogHeight | game/rendering.py:34-36 | the sum of the messages' wrapped heights; it is zero exactly when every message wraps to zero rows; `LogHeightAppend` and `LogHeightBounds` prove its other properties |
| Rendering.LogHeightAppend | game/rendering.py:34-36 | the log height is the sum of the messages' wrapped heights |
| Rendering.LogHeightBounds | game/rendering.py:34-36 | no message is taller than the whole log |
| Rendering.MaxYPos | game/rendering.py:38-40 | the maximum position is max(0, log height - viewport height) |
| Rendering.LogRenderer.GetLogHeight | game/rendering.py:34-36 | the height of the world's log; zero exactly when every message in it takes no rows |
| Rendering.LogRenderer.GetMaxYPos | game/rendering.py:38-40 | the bottom-most scroll position: max(0, log height - renderer height) |
| Rendering.Scrolled | game/rendering.py:32 | the result lies in [0, max]; it is exact when in range; from an in-range start it moves in the scroll direction or stays |
| Rendering.LogRenderer.Init | game/rendering.py:23-28 | a new renderer starts scrolled to the bottom |
| Rendering.LogRenderer.Scroll | game/rendering.py:30-32 | the position becomes the clamped sum and stays within [0, max]; `wrap` has no effect |
| PyRandom.Random.RandInt | game/world_tools.py:26 | randint(a, b) lies in [a, b] |
| Ecs.AllOf | game/states.py:64 | an entity is found exactly when it holds every listed kind and carries every listed tag |
| Ecs.Registry.constructor | game/world_tools.py:14 | a new registry is empty |
| Ecs.Registry.NewEntity | game/world_tools.py:18 | `world[object()]` gives a key no entity has had |
| Ecs.Registry.SetPosition | game/components.py:24-32 | writing a Position also retags the entity through the changed callback, and the mirroring invariant holds |
| Ecs.Registry.SetGraphic | game/world_tools.py:20 | sets the Graphic component only |
| Ecs.Registry.SetGold | game/states.py:65 | sets the Gold component only |
| Ecs.Registry.SetRandom | game/world_tools.py:16 | sets the Random component only |
| Ecs.Registry.SetLog | game/message_tools.py:12 | sets the message-log component only |
| Ecs.Registry.AddTags | game/world_tools.py:22 | adds the named tags to the entity's tags and changes nothing else |
| Ecs.Registry.Clear | game/states.py:67 | the entity's components and tags are all gone; nothing else changes |
| Ecs.ClearedMatchesNothing | game/states.py:64-67 | a cleared entity matches no query |
| WorldTools.SpawnPlayer | game/world_tools.py:18-22 | the player is a new entity at (5, 5) drawn '@', with Gold 0, tagged IsPlayer, IsActor and its position |
| WorldTools.Place | game/world_tools.py:19-20 | writing Position then Graphic to a new entity gives it those components and its position tag |
| WorldTools.Endow | game/world_tools.py:21-22 | writing Gold then adding tags changes only those two parts of the entity |
| WorldTools.SpawnGold | game/world_tools.py:25-29 | a gold pile is a new entity inside [0, 20]², drawn '$' in yellow, worth 1 to 10, tagged IsItem and its position |
| WorldTools.SpawnStep | game/world_tools.py:24-29 | adding one more pile keeps the layout of the piles so far |
| WorldTools.SpawnGoldItems | game/world_tools.py:24-29 | the loop makes `count` distinct new piles and leaves earlier entities alone |
| WorldTools.LayoutQueries | game/world_tools.py:18-29 | in the generated layout, the IsPlayer query finds the player alone and the IsItem query the piles |
| WorldTools.NewWorld | game/world_tools.py:12-31 | the world entity holds a Random; exactly one player with the right layout; exactly ten gold items; the player is not an item; position tags mirror positions |
| Menus.MoveSelection | game/menus.py:66-75 | vertical moves wrap modulo the item count; with no selection, down picks 0 and up picks the last |
| Menus.PointAt | game/menus.py:76-79 | the mouse row selects `y - self.y` when it lies in range, otherwise nothing |
| Menus.NextSelected | game/menus.py:66-79 | the selection after an event, for both list menus (also game/states.py:106-119): a vertical key always leaves an item selected, mouse motion selects exactly when the row lies in the list, and every other event keeps the selection; see `NextSelectedValid` and `SelectionChangers` |
| Menus.NextSelectedValid | game/menus.py:66-79 | with items present, every event keeps the selection None or in range |
| Menus.SelectionChangers | game/menus.py:66-79 | only the six vertical keys and mouse motion change the selection |
| Menus.WrapAroundThree | game/states.py:110-112 | with three items, up from 0 gives 2 and down from 2 gives 0 |
| Menus.SelectItem.OnEvent | game/menus.py:37-45 | returns the callback's result on RETURN, RETURN2, KP_ENTER or left-button-up, and None otherwise |
| Menus.ListMenu.constructor | game/menus.py:52-59 | a menu holds its items, selection and position |
| Menus.ListMenu.ActivateSelected | game/menus.py:87-91 | a confirming event runs the selected item's callback; with nothing selected the result is None |
| Menus.ListMenu.OnCancel | game/menus.py:93-95 | cancelling pops the menu |
| Menus.ListMenu.OnEvent | game/menus.py:61-85 | the selection follows vertical keys and the mouse; Quit exits; Escape or right-up pops with the selection kept; horizontal and unmatched events go to the selected item |
| States.GoldAt | game/states.py:64 | the pickup query: exactly the entities holding Gold and tagged both IsItem and the cell |
| States.Moved | game/states.py:62 | after the move the player's Position is the old one plus the step, retagged by the changed callback, with its other components kept; no other entity and no gold changes |
| States.PlayerNotPicked | game/states.py:64 | the player is never among the piles picked up |
| States.PickupStep | game/states.py:64-67 | one loop turn adds a pile's gold to the player and clears the pile |
| States.Collected | game/states.py:64-67 | the store once a set of piles is picked up: those piles are gone, no other entity but the player changes, and the player keeps its place and tags; the gold laws are `StepConservesGold` and `StepPaysPlayer` |
| States.PickupProgressStep | game/states.py:64-67 | collecting one more pile keeps the pickup loop on course to collect them all |
| States.Stepped | game/states.py:61-67 | the whole in-game step: the player stands one step on and no entity is created; `StepConservesGold`, `StepPaysPlayer`, `StepMovesAndCollects`, `StepKeepsOthers` and `StepKeepsPlayable` prove the rest |
| States.StepConservesGold | game/states.py:61-67 | player gold plus all remaining gold is unchanged by a step |
| States.StepPaysPlayer | game/states.py:64-67 | the player's gold rises by exactly the gold on the new cell |
| States.StepMovesAndCollects | game/states.py:61-67 | after a step the player stands one step on and no gold item is left on that cell |
| States.StepKeepsOthers | game/states.py:61-67 | entities other than the player and the piles on the new cell are untouched |
| States.TheOnlyPlayer | game/states.py:57 | the query for IsPlayer finds exactly the one player |
| States.StepKeepsPlayable | game/states.py:57-67 | in a playable world every step can be taken and leaves the world playable with the same player |
| States.MainMenuItems | game/states.py:165-179 | [New game, Quit], with Continue prepended exactly when a world exists |
| States.CallbackReply | game/states.py:181-192 | continue and new game rebase onto a new in-game state; quit exits |
| States.NewWorldPlayable | game/states.py:185-188 | a newly generated world is playable |
| States.Call | game/states.py:181-192 | running a callback gives its reply; only new game replaces the world, with a fresh playable one |
| States.ListMenu.constructor | game/states.py:92-99 | a menu holds its items, selection and position |
| States.ListMenu.MainMenu | game/states.py:165-179 | the main menu's items depend on whether a world exists; selection 0; at (5, 5) |
| States.ListMenu.ActivateSelected | game/states.py:131-135 | runs the selected item's callback, or returns None with nothing selected |
| States.ListMenu.OnEvent | game/states.py:101-129 | the selection follows vertical keys and the mouse, and horizontal keys are ignored; RETURN or left-up runs the selected callback; Escape or right-up pops; Quit exits |
| States.PickUpGold | game/states.py:64-67 | the pickup loop collects every gold pile on the cell into the player's purse and clears them |
| States.Collect | game/states.py:65-67 | one pickup: the pile's gold is added to the player's and the pile is cleared |
| States.Walk | game/states.py:61-67 | a direction key moves the player by the key's step and then picks up the gold |
| States.PushMainMenu | game/states.py:69-70 | Escape in the game pushes a fresh main menu offering Continue, with the first item selected, at (5, 5) |
| States.InGameOnEvent | game/states.py:55-72 | needs exactly one player; a direction key steps; Escape pushes a main menu with Continue, first item selected, at (5, 5); Quit exits; anything else changes nothing |
| ExampleMain.Moved | main.py:24-34 | LEFT/RIGHT change x by ∓1, UP/DOWN change y by ∓1, one coordinate at a time with no bounds; other events change nothing |
| ExampleMain.ArrowsFollowTable | main.py:27-34 | the four arrows move as the direction table says |
| ExampleMain.OppositeArrowsCancel | main.py:27-34 | opposite arrows undo each other |
| ExampleMain.ExampleState.Centred | main.py:47-48 | the player starts at (80 // 2, 50 // 2) = (40, 25) |
| ExampleMain.ExampleState.OnEvent | main.py:22-34 | the position moves as `Moved` says; Quit ends the program |

## Left out

- Drawing is not modelled: every `on_draw`, `main_draw`, `LogRenderer.render`, the menu dimming, `draw_previous_state` and all tcod console output. It is display output.
- Input and windowing are not modelled: `tcod.event.wait`, `context.convert_event`, `context.present` and the setup in `main()`. Events are a finite sequence given as a parameter, already in tile coordinates.
- `game/saving.py` and `game/config.py` are not part of this model. They are serialisation and file I/O.
- The internals of tcod.ecs are not modelled. The store is a map from entity key to a record of optional components and a tag set.
- `Ecs.Registry.Clear` removes the entity's key instead of keeping an empty entity. No query can tell the two apart (`Ecs.ClearedMatchesNothing`).
- `random.Random` is not modelled. `PyRandom.Random` has a simple generator body, and only its range contract is relied on. The seed is a parameter, where the source draws OS entropy.
- The `print` calls at game/states.py:66 and main.py:55 are left out; they are output only.
- `SystemExit` is not raised. It becomes an `Exit` reply, or the `exit` result of `ExampleMain.ExampleState.OnEvent`.
- The `TypeError` branch of `apply_state_result` cannot arise, because `StateResult` is a closed datatype.
- StateTools.StateStack.MainLoop: the handler is a pure function of the state and the event. Because of that, the game's own handlers are not plugged into it: they change the world and allocate new menus. The loop is the generic dispatch rule.
- Menus.ListMenu.OnEvent, States.ListMenu.OnEvent: require the selection invariant (None, or an index in range), so Python's negative indexing of `items[selected]` is not modelled. They restore the invariant only when the menu has items. Up-arrow on an empty menu with no selection gives -1, as in the source.
- States.InGameOnEvent: requires that the player is not tagged IsItem. `new_world` guarantees this (`WorldTools.NewWorld`), and the invariant is kept by every step (`States.StepKeepsPlayable`). The source would try to pick the player up otherwise.
- States.InGameOnEvent also requires that the player has a Position before a direction key, and a Gold component when gold lies on the target cell. The source fails with a lookup error otherwise.
- Rendering.LogRenderer: reading the log does not install the empty log on the world entity, as `get_log`'s `setdefault` does during rendering. It reads the log, or the empty log if there is none.
- `tcod.console.get_height_rect` is not modelled. It is the function parameter `heightOf` of `LogRenderer`.
- The copy of `DIRECTION_KEYS` at game/states.py:19-48 is identical to game/constants.py:9-38. Both are modelled by the single `Constants.Direction`.
- The order in which the pickup loop visits the piles is unspecified, because the query returns a set. The resulting state does not depend on that order.
- Key symbols outside the ones the game names are one `OtherKey` case. Mouse buttons other than left and right behave as unmatched events.
