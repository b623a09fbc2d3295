# Clocktower adventure: the game-state engine

A model, in Dafny, of the state engine of a small point-and-click adventure
(`game.js`). The player moves between three rooms (square, workshop,
clocktower), picks up a crowbar and a battery, pries open a panel, restores
power, opens a chest, takes the clocktower key and uses it on the tower door.
The engine is a module-level `state` record (current room, inventory, seven
one-way progress flags), a constant room registry, the inventory helpers
`hasItem` and `addItem`, the narration `log`, and the resolver
`executeAction(type, target)`, a `switch` on the action-type string whose cases
check their guards in a fixed order and stop at the first that fails.

Files and modules:

- `engine.dfy`, module `Engine`: the state as values (`State`, `Flags`), the
  narration lines (`Narration`, whose `Text` gives the exact strings the page
  shows) and log entries (`Entry`, kind `Normal` or `Victory`), `Added` (what
  `addItem` does to the inventory), `VerbOf`/`Tag` (the `case` a type string
  selects, `Unknown` for the `default` case), and `Step`, the resolver as a
  function from a state and a command to the new state and the entries logged.
  It also holds a second, table-driven statement of the guarded actions
  (`RuleOf`, `Guarded`): each action as its guards in checking order, each with
  its failure message, and its effect on success.
- `rules.dfy`, module `Rules`: per-action lemmas: guard order, "a failed guard
  changes nothing", what success changes, and that the switch agrees with the
  guard table.
- `progress.dfy`, module `Progress`: runs of many actions (`Run`), the
  invariant every reachable state keeps (`Consistent`), one-way progress, room
  closure when the player follows the rooms' own buttons (`Played`), and a
  complete winning play.
- `world.dfy`, module `World`: the room registry, reduced to each room's ordered
  action list (type tag and move target).
- `session.dfy`, module `Session`: class `Game`, the mutable `state` with its
  fields updated in place as the source does (`room`, `inventory`, `flags`)
  plus the page's log (newest first, since the page prepends). Its
  `ExecuteAction` is proved to produce exactly the state and entries `Step`
  specifies and to keep the invariant.

Facts about `game.js` that shape the model:

- The workshop's only move button leads back to the square (`game.js:31`), so a
  play through the buttons passes the square on its way to the clocktower.
  `WinningPlay` takes that route, and `World.WorkshopLeadsOnlyToSquare` states
  the registry fact.
- `addItem` appends to an ordered array (`game.js:62`), so the inventory is a
  sequence. The winning play fixes its order: crowbar, battery, clocktower key.
- `move` assigns any target without checking it (`game.js:91`), and the model
  does the same. `Progress.PlayedStaysInRooms` shows that the room buttons only
  ever lead to registered rooms.

## Model

| member | source | states |
|---|---|---|
| `Engine.Added` | game.js:60-64 | the item is held afterwards, nothing else is added or lost, an inventory without duplicates stays without duplicates, and an item already held leaves the inventory unchanged |
| `Engine.VerbOf` | game.js:89-171 | the type string "move" selects the move case, and a string selects the default case exactly when it is none of the nine names the switch lists |
| `Engine.Tag` | game.js:89-169 | each case label is one of the nine known type strings and reads back as the same case |
| `Engine.TagOfVerbOf` | game.js:89-169 | each known type string is the label of the case it selects |
| `Engine.Step` | game.js:88-172 | one action never clears a flag, only ever appends to the inventory, logs exactly one entry unless it is `move` (which logs none), and changes the room only for `move`, to its target |
| `Engine.Initial` | game.js:1-13 | no contract of its own: transcribes the initial `state` record (the square, an empty inventory, every flag clear); `Progress.InitialConsistent` states its property |
| `Engine.Text` | game.js:94-171 | no contract of its own: transcribes the exact string of each of the 22 messages the switch logs |
| `Engine.RuleOf` | game.js:96-168 | no contract of its own: the guarded cases as a table, each guard with its failure message in checking order plus the success effect and entry; `Rules.StepFollowsRule` proves the switch agrees with it |
| `Engine.Guarded` | game.js:114-168 | guards are checked in order: when all pass the success outcome results, otherwise the first failing guard's message is logged and the state is left as it was |
| `Rules.StepFollowsRule` | game.js:96-169 | each guarded action of the switch checks exactly the guards of its table row, in that order, and on success applies the row's effect and entry |
| `Rules.GuardedActionChangesAllOrNothing` | game.js:96-169 | a guarded action either leaves the whole state unchanged or applies exactly its effect and logs its success entry |
| `Rules.MoveOnlyChangesRoom` | game.js:90-92 | `move` sets the room to the target, changes nothing else and logs nothing |
| `Rules.InspectFountainIsNoOp` | game.js:93-95 | inspecting the fountain changes nothing and logs the coins message |
| `Rules.UnknownActionIsNoOp` | game.js:170-171 | a type string the switch does not name logs "Nothing happens." and changes nothing |
| `Rules.TakeCrowbarOnce` | game.js:96-104 | after `takeCrowbar` the crowbar flag is set; the first time the crowbar is added once, and every later time only the "already picked up" message is logged |
| `Rules.TakeBatteryOnce` | game.js:105-113 | the same for `takeBattery` and the battery |
| `Rules.OpenPanelNeedsCrowbar` | game.js:114-122 | without the crowbar `openPanel` changes nothing, logging "already open" if the panel is open (checked first) and "need something to pry" otherwise |
| `Rules.OpenPanelSucceedsIff` | game.js:114-122 | `openPanel` changes the state exactly when the panel is closed and the crowbar is held, and then only sets `panelOpened` |
| `Rules.InsertBatteryNeedsOpenPanel` | game.js:124-126 | before the panel is open `insertBattery` always fails with "open the panel first", whether or not the battery is held |
| `Rules.InsertBatteryChecksBatteryThenPower` | game.js:124-134 | with the panel open, a missing battery is reported before power already on, and otherwise only `powerOn` is set |
| `Rules.OpenChestNeedsPower` | game.js:136-138 | without power `openChest` logs "remains locked tight" and changes nothing |
| `Rules.OpenChestSucceedsIff` | game.js:136-144 | `openChest` changes the state exactly when power is on and the chest is closed, and then only sets `chestOpen` |
| `Rules.TakeKeyNeedsOpenChest` | game.js:146-148 | while the chest is closed `takeKey` logs "don't see a key" and changes nothing |
| `Rules.TakeKeySucceedsIff` | game.js:146-155 | `takeKey` changes the state exactly when the chest is open and the key not yet taken, and then sets `keyTaken` and adds the clocktower key |
| `Rules.UseKeyNeedsKey` | game.js:157-159 | without the clocktower key `useKey` logs "door is locked" and never sets `gameWon` |
| `Rules.UseKeyWins` | game.js:160-168 | with the key in a game not yet won, `useKey` sets only `gameWon` and logs the one entry of kind victory |
| `Rules.UseKeyAfterWinning` | game.js:157-161 | repeating `useKey` after winning logs "already open" and changes nothing |
| `Rules.VictoryOnlyOnWinning` | game.js:157-168 | an action logs a victory entry exactly when it is `useKey` and it turns a game not yet won into a won one |
| `Rules.StepIdempotent` | game.js:88-172 | repeating any action right away changes the state no further |
| `World.RegistryClosed` | game.js:15-49 | every move in the registry carries a target and every target is a registered room |
| `World.WorkshopLeadsOnlyToSquare` | game.js:26-35 | the workshop's only move leads to the square |
| `Progress.Run` | game.js:88-172 | no contract of its own: successive `executeAction` calls, the entries collected newest first; the lemmas below state its properties |
| `Progress.Consistent` | game.js:1-172 | no contract of its own: the invariant of every reachable state (no duplicate items, only the three items, each pickup flag set exactly when its item is held, each stage implying the one before) |
| `Progress.InitialConsistent` | game.js:1-13 | the start state satisfies the invariant |
| `Progress.StepKeepsConsistent` | game.js:88-172 | every action keeps the invariant: no duplicates, only the three items, each pickup flag set exactly when its item is held, each stage implying the one before |
| `Progress.RunKeepsConsistent` | game.js:88-172 | every sequence of actions keeps the invariant |
| `Progress.Reachable` | game.js:1-172 | every state reachable from the start has no duplicate items, a won game holds the key, power implies an open panel, an open chest implies power, a taken key implies an open chest, and each pickup flag agrees with its item |
| `Progress.RunMonotone` | game.js:97-168 | along any sequence of actions no flag is cleared (a won game stays won), the inventory only grows at its end, and at most one entry is logged per action |
| `Progress.RunKeepsDistinct` | game.js:60-64 | from an inventory without duplicates, no sequence of actions, repeated pickups included, ever puts an item in it twice |
| `Progress.PlayedStaysInRooms` | game.js:177-194 | as long as the player presses the current room's buttons, the current room is a registered room, so the registry lookup at render time is defined |
| `Progress.RunAlong` | game.js:88-172 | a run through given intermediate states ends in the last one, logs the last action's entries newest, and uses only offered buttons when each step does |
| `Progress.WinningPlayWins` | game.js:1-172 | from the start, the ten-button play ends in the clocktower with the game won, the inventory crowbar, battery, clocktower key, the victory entry newest in the log, and a further `useKey` logs "already open" with nothing changed |
| `Session.Game.constructor` | game.js:1-13 | a session starts in the initial state, with an empty log, and satisfies the invariant |
| `Session.Game.AddItem` | game.js:60-64 | `addItem` leaves the inventory as `Added` describes and keeps it free of duplicates |
| `Session.Game.Log` | game.js:66-71 | `log` puts the new entry in front of the earlier ones |
| `Session.Game.Resolve` | game.js:89-172 | the in-place switch leaves the fields and the log exactly as `Step` specifies |
| `Session.Game.ExecuteAction` | game.js:88-175 | `executeAction` updates the state as `Step` specifies, keeps the invariant, never clears a flag and never drops an item |

## Left out

- Rendering and the page: `render`, `renderInventory`, element lookups, button creation and click wiring (game.js:51-54, 73-86, 177-200). They are presentation only. The one fact they rely on, that `rooms[state.room]` is defined, is `Progress.PlayedStaysInRooms`.
- The `<p>` element that `log` creates. The log is kept as a sequence of entries, newest first.
- The display strings of the registry: room names, descriptions and button labels. The registry keeps room ids, action types and move targets.
- The opening log line and the first render at start-up (game.js:202-203). They are I/O. The constructor fixes the initial state with an empty log.
- The `undefined` target that non-move buttons pass. Those cases never read the target, so the model accepts any string there. A `move` without a target does not occur in the registry (`World.RegistryClosed`).
- Action types are read once into the `Verb` enumeration through `VerbOf`, which gives the source's string dispatch and default case. The registry stores the same tags as `Verb` values instead of strings (`Tag` maps them back).
- Session.Game.HasItem: the `includes` query is kept as a predicate without a contract of its own, since its body is the membership test.
