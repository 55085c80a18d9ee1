# Marice & Cats House Adventure — a verified model of the game rules

This project is a Dafny model of the rules of a small browser adventure. Marice explores a house over four floors:

- outside;
- the main floor;
- the basement;
- upstairs.

She feeds three cats, Alice, Olive and Beatrice, by finding treats, a key and a laundry basket. The model covers:

- the tile maps;
- the dialogue table;
- movement and collision;
- the stairs;
- the interaction switch that drives the quest;
- the modal dialogue with its typewriter reveal;
- the front-door numpad;
- the next-task hint;
- the save record and its loading;
- the reset of a new game, from the title screen or the ending screen.

It then proves what these rules promise.

The modules follow the program:

- `Maps` (maps.dfy) holds data/maps.js: the tile codes, the three indoor grids, their interactables, the stair spans and the start tiles.
- `Script` (script.dfy) holds the `DIALOGUE` table of data/dialogue.js. Each key maps to its messages. A message is modelled by its speaker and the length of its text, which is what the typewriter counts.
- `Rules` (rules.dfy) makes the whole game state one value, `World`: `gameState`, the dialogue and typewriter globals, and the numpad and ending overlays. Each routine of game.js is a function on that value. These functions are the specification.
- `Engine` (engine.dfy) is the game as game.js runs it. `class Game` has one field per global, and each routine is a method that updates those fields in place. Every method is proved to leave the object in the state the matching `Rules` function computes. Every public method requires and keeps `Valid()`, which says a slide always has a destination, so any routine can follow any other.
- `Behaviour` (behaviour.dfy) states, branch by branch, what each routine does. Examples:
  - a move into a wall only turns the player;
  - a slide commits on the eighth frame;
  - each cat's chain is first-match-wins;
  - the dialogue callback runs exactly once;
  - loading a save restores what was saved.
- `Invariants` (invariants.dfy) proves two facts about every action the player can take, and about any sequence of such actions:
  - The quest bookkeeping stays consistent. The inventory and the found toys have no duplicates. The basket and the key are held only after they were earned. `game_complete` is set exactly when Beatrice is fed. A pending reward never grants an item already held.
  - Flags only ever become true until a new game or a restart.

A dialogue's completion callback is a value of `Rules.Effect`: `GrantItem`, `OliveReward`, `FloorTo`, `OpenNumpad` or `ShowEnding`. A callback that only shows toasts or saves is `Cosmetic`. No callback at all is `NoCallback`. The model keeps the order in which the source makes its changes. Flags are set and items removed before a dialogue opens. Items are granted and floors changed only in the callback, when the dialogue ends.

Where the design description and the code disagree, the model follows the code:

- The design says every reward mutation happens in the completion callback. The code sets the quest flags and removes the spent item *before* the dialogue starts (game.js:1119-1120, 1136-1137, 1150-1151, 1170-1171, 1191-1193, 968-969). Only grants and floor changes wait for the callback.
- The design says that, while a slide is running, a direction still updates the facing. The code returns from `tryMove` before turning whenever a slide or a dialogue is in progress (game.js:926).
- The design says every dialogue has 1 or 3 messages, and the table's own header says every sequence has exactly 3. In fact:
  - the riddle plaque and the three toy discoveries have 2;
  - the locked front door, the intro and the cat scripts have 3;
  - every other entry has 1.
- The design treats an unusable save as "no save". The code's `loadGame` assigns `currentFloor` before it reads `player`. A record without a player therefore fails with the floor already changed (game.js:3454-3456).

## Model

| member | source | states |
|---|---|---|
| Maps.MainGridWellFormed | data/maps.js:74-105 | the main grid is 15 rows of 20 cells, each a tile code 0..6 of `T` |
| Maps.BasementGridWellFormed | data/maps.js:164-195 | the basement grid is 15 rows of 20 cells, each a tile code 0..6 |
| Maps.UpstairsGridWellFormed | data/maps.js:220-251 | the upstairs grid is 15 rows of 20 cells, each a tile code 0..6 |
| Maps.OuterRowsAreWalls | data/maps.js:74-251 | rows 0 and 14 of every indoor grid are all WALL |
| Maps.MainInteractablesDistinct | data/maps.js:107-142 | every main-floor interactable lies inside the grid and no two share a tile |
| Maps.BasementInteractablesDistinct | data/maps.js:197-202 | the same for the basement's interactables |
| Maps.UpstairsInteractablesDistinct | data/maps.js:253-256 | the same for the upstairs interactables |
| Maps.FloorsValid | data/maps.js:268-293 | every floor of the `FLOORS` table has a well-formed grid and distinct in-bounds interactables, given a valid outside floor |
| Maps.MainStairsAreSpan | data/maps.js:145-150 | the STAIRS tiles of the main grid are exactly rows [6,7] × cols [10,11] of `toUpstairs` |
| Maps.BasementStairsAreSpan | data/maps.js:204-206 | the STAIRS tiles of the basement grid are exactly [1,2] × [1,2] of `toMain` |
| Maps.UpstairsStairsAreSpan | data/maps.js:258-260 | the STAIRS tiles of the upstairs grid are exactly [12,13] × [8,9] of `toMain` |
| Maps.ArrivalTilesFree | data/maps.js:152-262 | each indoor start tile, and the landings (7,17) and (8,10), is a FLOOR tile with no interactable on it |
| Script.ScriptLengths | data/dialogue.js:13-472 | every key of `DIALOGUE` has a non-empty sequence of at most three messages |
| Script.StoryLengths | data/dialogue.js:15-111 | the intro and every Alice, Olive and Beatrice script have exactly three messages |
| Script.ObjectLengths | data/dialogue.js:113-195 | every object entry (cupboards, sofa, doors, laundry pile, first furniture) has one message |
| Script.MainPropLengths | data/dialogue.js:197-251 | every other main-floor furniture entry has one message |
| Script.BasementPropLengths | data/dialogue.js:253-319 | every basement furniture entry has one message |
| Script.UpstairsRoomLengths | data/dialogue.js:321-367 | every bedroom and office entry upstairs has one message |
| Script.UpstairsHallLengths | data/dialogue.js:369-403 | every bathroom and hallway entry upstairs has one message |
| Script.EntranceLengths | data/dialogue.js:409-418 | the riddle plaque has two messages and the locked front door three |
| Script.OutsideLengths | data/dialogue.js:423-449 | every outside flavour entry has one message |
| Script.ToyLengths | data/dialogue.js:451-471 | each toy discovery has two messages and `cat_toy_found` one |
| Rules.IndexOf | game.js:768-769 | `indexOf`: -1 exactly when the item is absent, otherwise the position of its first occurrence |
| Rules.RemoveItem | game.js:768-775 | `removeItem` leaves an inventory without the item unchanged and otherwise removes exactly one copy of it |
| Rules.FindAt | game.js:909-915 | the scan returns the first interactable on the tile, or -1 when none is there |
| Rules.TryMove | game.js:925-956 | a call during a slide changes nothing, and a slide it starts heads for the neighbour in the given direction |
| Rules.StairTransition | game.js:958-1001 | a stair transition never starts or alters a slide |
| Engine.Game.constructor | game.js:34-56 | the page-load state: outside on the outside start tile facing down, empty inventory, every flag false, no slide, no dialogue |
| Engine.Game.AddItem | game.js:748-750 | `addItem` appends the item and changes nothing else |
| Engine.Game.RemoveItem | game.js:768-775 | `removeItem` splices out the first occurrence, as `Rules.RemoveItem` |
| Engine.Game.IsTileBlocked | game.js:884-895 | the bounds check, tile check and interactable scan answer exactly `Rules.IsTileBlocked` |
| Engine.Game.GetInteractableAt | game.js:909-915 | the scan returns the first interactable of the current floor on the tile, as `Rules.InteractableAt` |
| Engine.Game.ChangeFloor | game.js:818-847 | the player stands on the target floor's start tile facing down |
| Engine.Game.ChangeFloorTo | game.js:850-876 | the player stands on the given floor, tile and facing |
| Engine.Game.HandleStairTransition | game.js:958-1001 | returns true exactly when the floor handles the tile, and then leaves the state `Rules.StairTransition` gives; otherwise changes nothing |
| Engine.Game.TryMove | game.js:925-956 | leaves the state `Rules.TryMove` computes |
| Engine.Game.UpdateMovement | game.js:1003-1016 | one slide frame, as `Rules.UpdateMovement`; a slide keeps its destination |
| Engine.Game.GameLoopFrame | game.js:3302-3318 | the held direction is tried only when idle, then the slide advances, as `Rules.LoopFrame` |
| Engine.Game.StartDialogue | game.js:404-421 | a missing or empty script is ignored; otherwise the queue opens on its first message with the callback stored |
| Engine.Game.ShowDialogueMessage | game.js:423-447 | restarts the reveal on the current message, and does nothing past the end of the queue |
| Engine.Game.TypewriterTick | game.js:449-468 | one timer firing reveals one more character and finishes the reveal at the end of the text |
| Engine.Game.FinishTypewriter | game.js:470-477 | the whole message is shown and the reveal is done |
| Engine.Game.AdvanceDialogue | game.js:479-494 | finishes the reveal, shows the next message or closes the dialogue, as `Rules.Advance` |
| Engine.Game.CloseDialogue | game.js:496-510 | the dialogue closes and the callback is cleared before it runs |
| Engine.Game.RunCallback | game.js:1090-1200 | each completion callback's effect on the state |
| Engine.Game.HideDialogue | game.js:514-529 | every dialogue and typewriter global is reset and no callback runs |
| Engine.Game.ShowEnding | game.js:3668-3670 | the ending overlay is shown and nothing else changes |
| Engine.Game.FeedCat | game.js:1111-1202 | the three cat chains of the interaction switch, as `Rules.FeedCat` |
| Engine.Game.HandleInteraction | game.js:1037-1427 | the interaction switch, as `Rules.HandleInteraction` |
| Engine.Game.Feed | game.js:1117-1198 | a cat given the treat she wants: the treat is used up and the cat marked fed before her "after" script opens with her reward pending |
| Engine.Game.UseFrontDoor | game.js:1047-1066 | the front door case, as `Rules.UseFrontDoor` |
| Engine.Game.SearchPurrpopsCupboard | game.js:1083-1096 | the Purrpops cupboard case, as `Rules.SearchPurrpopsCupboard` |
| Engine.Game.SearchFeastCupboard | game.js:1098-1108 | the feast cupboard case, as `Rules.SearchFeastCupboard` |
| Engine.Game.SearchSofa | game.js:1132-1143 | the sofa case, as `Rules.SearchSofa` |
| Engine.Game.UseBasementDoor | game.js:1146-1161 | the basement door case, as `Rules.UseBasementDoor` |
| Engine.Game.PickUpToy | game.js:1382-1402 | the cat toy case, as `Rules.PickUpToy` |
| Engine.Game.TryInteract | game.js:1020-1035 | advances an open dialogue, ignores a slide, otherwise handles the faced interactable |
| Engine.Game.CheckLaundryInteraction | game.js:1430-1451 | facing the blocked stairs with the basket clears them and reports true; otherwise changes nothing and reports false |
| Engine.Game.PressInteract | game.js:3322-3342 | the interact key is ignored while the numpad is open, advances a dialogue, then tries the laundry before a normal interaction; it keeps `Valid()`, so a game-loop frame may follow it |
| Engine.Game.HideNumpad | game.js:3528-3532 | the numpad closes and its callback is dropped |
| Engine.Game.NumpadSubmit | game.js:3534-3545 | codes under four characters are ignored; otherwise the numpad closes and the front door's callback checks the code |
| Engine.Game.StartNewGame | game.js:3590-3639 | the reset, then the intro, as `Rules.StartNewGame` |
| Engine.Game.HideEnding | game.js:3672-3674 | the ending overlay is taken down and nothing else changes |
| Engine.Game.RestartGame | game.js:3676-3679 | the ending overlay is taken down, then a new game starts, as `Rules.RestartGame` |
| Engine.Game.ResetRuntimeState | game.js:3590-3623 | the slide, numpad and dialogue are cleared, the player is outside, the inventory is empty and every flag is false; the ending overlay is kept |
| Engine.Game.DoSaveGame | game.js:3423-3429 | the record it writes is `Rules.DoSaveGame` of the current state, which holds the floor, the player's tile and facing, the inventory and every flag |
| Engine.Game.LoadGame | game.js:3448-3465 | as `Rules.LoadGame`: no record fails unchanged; a record without a player fails after taking its floor; otherwise the state is restored with flags merged over the current ones |
| Behaviour.StartWithoutScript | game.js:404-406 | `startDialogue` with no script changes nothing |
| Behaviour.PlayOpens | game.js:404-421 | every key the game plays exists, so the dialogue opens on its first message with the callback pending and nothing else changed |
| Behaviour.AdvanceWhenClosed | game.js:479-480 | an advance with no dialogue open changes nothing |
| Behaviour.AdvanceWhileTyping | game.js:482-486 | during the reveal an advance only completes it; the message and the callback stay |
| Behaviour.AdvanceToNext | game.js:488-493 | after the reveal, an advance before the last message shows the next one from the start, keeping the callback |
| Behaviour.AdvancePastEnd | game.js:488-510 | an advance past the last message closes the dialogue, clears the callback and then runs it once |
| Behaviour.EffectsLeaveDialogue | game.js:1090-1200 | no completion callback touches the dialogue state |
| Behaviour.CallbackRunsOnce | game.js:496-510 | after the advance that ran the callback, a further advance changes nothing |
| Behaviour.HideDropsCallback | game.js:512-529 | `hideDialogue` drops the callback without running it, and no later advance can run it |
| Behaviour.TypingProgress | game.js:456-465 | each timer firing before the end of the text reveals exactly one more character |
| Behaviour.TypingFinishes | game.js:449-477 | a reveal of a text of length L finishes on exactly the max(L, 1)-th firing, and later firings change nothing |
| Behaviour.TicksStopWhenDone | game.js:470-477 | a finished or closed reveal ignores the timer |
| Behaviour.MoveWhileBusy | game.js:926 | `tryMove` during a slide or a dialogue changes nothing, not even the facing |
| Behaviour.MoveIntoBlocked | game.js:929-947 | a move onto a blocked tile that no stairs take over only turns the player |
| Behaviour.MoveStartsSlide | game.js:929-953 | a move onto an open tile turns the player and starts a slide from the current tile to that one, leaving the player's tile unchanged |
| Behaviour.MoveOntoStairs | game.js:943-944 | stairs the floor handles take the move over entirely |
| Behaviour.SlideProgress | game.js:1003-1006 | each of the first seven frames only advances the progress by MOVE_SPEED |
| Behaviour.SlideTakesEightFrames | game.js:1003-1016 | with MOVE_SPEED 3 and TILE_SIZE 24 a slide commits on exactly the eighth frame: tile := destination, slide over, progress 0, endpoints cleared |
| Behaviour.LaundryBlocks | game.js:964-979 | without the basket the main stairs only play the "blocked" script; the floor does not change |
| Behaviour.LaundryClears | game.js:964-979 | with the basket it is removed and `laundry_cleared` set at once, and the climb waits for the end of the script |
| Behaviour.ClearLaundryRemovesBasket | game.js:968-969 | handing in the basket removes one basket, sets `laundry_cleared` and changes nothing else |
| Behaviour.ClearedStairsClimb | game.js:981-982 | once cleared, the main stairs take the player to the upstairs start tile |
| Behaviour.BasementStairsReturn | game.js:984-990 | the basement stairs land on the main floor at (7,17) facing left |
| Behaviour.UpstairsStairsReturn | game.js:991-997 | the upstairs stairs land on the main floor at (8,10) facing down |
| Behaviour.ArrivalsAreFree | game.js:818-847 | `changeFloor` to an indoor floor, and either return staircase, puts the player on an unblocked FLOOR tile |
| Behaviour.CatAlreadyFed | game.js:1111-1113 | a fed Alice or Olive plays her "done" script and nothing changes |
| Behaviour.BeatriceAlreadyFed | game.js:1185-1187 | a fed Beatrice shows the ending again; she has no "done" script |
| Behaviour.CatRefuses | game.js:1114-1116 | the wrong treat without the right one is refused with no change |
| Behaviour.CatEats | game.js:1117-1125 | the right treat is removed and the cat marked fed at once; the reward waits for the end of the script |
| Behaviour.CatWaits | game.js:1126-1128 | with neither treat the "before" script plays with no change |
| Behaviour.MarkFedSetsOnlyCat | game.js:1164-1194 | feeding sets exactly that cat's flag (and `game_complete` for Beatrice) and no other |
| Behaviour.OliveGivesBasket | game.js:1173-1178 | Olive's reward adds the basket and sets `has_laundry_basket` |
| Behaviour.SofaGivesKey | game.js:1132-1142 | with Alice fed and the sofa unsearched and no key yet, both flags are set at once and the key is granted when the script ends |
| Behaviour.SofaEmpty | game.js:1133-1134 | any other search finds nothing and changes nothing |
| Behaviour.SofaOnce | game.js:1132-1143 | after one successful search the sofa is empty for good |
| Behaviour.PurrpopsCupboardGives | game.js:1083-1096 | purrpops are granted exactly when none are held and Alice and Olive are not both fed; otherwise the cupboard is empty and nothing changes |
| Behaviour.FeastCupboardGives | game.js:1098-1108 | the plate is granted exactly when none is held and Beatrice is not fed |
| Behaviour.BasementDoorUnlocks | game.js:1149-1157 | with the key, the key is used up and `basement_unlocked` set at once; the move down waits for the script |
| Behaviour.BasementDoorLocked | game.js:1158-1160 | without the key the locked door only says so |
| Behaviour.BasementDoorOpen | game.js:1147-1148 | an unlocked door leads straight to the basement start tile |
| Behaviour.FrontDoorOpens | game.js:1047-1066 | a locked front door opens the numpad when its script ends; an unlocked one leads straight to the main floor |
| Behaviour.ShortCodeIgnored | game.js:3534-3539 | a code under four characters, or a closed numpad, changes nothing |
| Behaviour.RightCodeUnlocks | game.js:1052-1059 | "3134" closes the numpad, sets `front_door_unlocked` and moves to the main floor's start |
| Behaviour.WrongCodeRetries | game.js:1060-1063 | any other code only closes the numpad, and the door can be tried again without limit |
| Behaviour.ToyFoundOnce | game.js:1382-1402 | a toy id is appended the first time only; a second find plays `cat_toy_found` with no change |
| Behaviour.OpenTiles | game.js:884-895 | off-map, WALL, FURNITURE, COUNTER and occupied tiles are blocked; FLOOR, DOOR, STAIRS and INTERACT tiles with no object are open |
| Behaviour.FacingTileAdjacent | game.js:897-907 | the faced tile is the neighbour in the facing direction, differing in exactly one coordinate by one |
| Behaviour.InteractableAtIsOnlyOne | game.js:909-915 | on a floor with distinct tiles the first match of the scan is the only one |
| Behaviour.AddThenRemove | game.js:748-775 | removing an item just added to an inventory without it gives the inventory back |
| Behaviour.RemoveFirst | game.js:768-775 | `removeItem` splices out the first occurrence and keeps the order of the rest |
| Behaviour.HintEndsWithGame | game.js:556-591 | the hint is absent exactly when the game is complete |
| Behaviour.HintFollowsQuest | game.js:556-591 | the hint names the earliest unfinished quest step, in the order plaque, Alice, sofa clue, basement key and door, Olive, laundry, Beatrice; where a step needs an item, holding it picks the "use it" hint and lacking it the "find it" hint |
| Behaviour.SaveLoadRoundTrip | game.js:3423-3465 | loading the saved record succeeds and restores floor, tile, facing, inventory and every flag |
| Behaviour.LoadNothing | game.js:3448-3452 | no record, or an unreadable one, fails and changes nothing |
| Behaviour.LoadWithoutPlayer | game.js:3454-3456 | a record without a player fails after its floor was taken |
| Behaviour.MergeKeepsMissing | game.js:3459 | `Object.assign` keeps each of the cats' flags and `game_complete` when the record lacks it and takes it when the record has it; a record without flags changes none |
| Behaviour.MergeKeepsMissingBasement | game.js:3459 | the same for `has_basement_key`, `basement_unlocked`, `has_laundry_basket` and `laundry_cleared` |
| Behaviour.MergeKeepsMissingOther | game.js:3459 | the same for `sofa_searched`, `front_door_unlocked` and `cat_toys_found` |
| Behaviour.NewGameResets | game.js:3590-3639 | a new game empties the inventory, resets every flag, puts the player outside facing down and opens the intro |
| Behaviour.RestartResets | game.js:3676-3679 | a restart takes the ending overlay down and is otherwise the same new game, with an empty inventory and every flag reset |
| Invariants.TryMoveKeeps | game.js:925-956 | a move keeps the quest bookkeeping consistent |
| Invariants.PressInteractKeeps | game.js:3329-3340 | the interact key keeps the bookkeeping consistent: no item is granted twice and no toy recorded twice |
| Invariants.AdvanceKeeps | game.js:479-510 | advancing or closing a dialogue, callback included, keeps the bookkeeping consistent |
| Invariants.HandleKeeps | game.js:1037-1427 | every interaction keeps the bookkeeping consistent |
| Invariants.NumpadKeeps | game.js:3534-3545 | a numpad submission keeps the bookkeeping consistent |
| Invariants.NewGameConsistent | game.js:3590-3639 | a new game starts consistent |
| Invariants.StepKeepsConsistent | game.js:3302-3342 | every player action keeps the bookkeeping consistent |
| Invariants.RunKeepsConsistent | game.js:3302-3342 | any sequence of actions from a consistent state stays consistent |
| Invariants.AdvanceFlags | game.js:479-510 | advancing a dialogue changes flags only by Olive's reward setting `has_laundry_basket` |
| Invariants.StairFlags | game.js:958-1001 | a stair transition changes flags only by setting `laundry_cleared` |
| Invariants.FeedCatFlags | game.js:1111-1202 | feeding changes flags only by marking the fed cat |
| Invariants.SofaFlags | game.js:1132-1143 | the sofa changes flags only by setting `sofa_searched` and `has_basement_key` |
| Invariants.BasementDoorFlags | game.js:1146-1161 | the basement door changes flags only by setting `basement_unlocked` |
| Invariants.ToyFlags | game.js:1382-1402 | a toy changes flags only by appending a new toy id |
| Invariants.NumpadFlags | game.js:3534-3545 | a submission changes flags only by setting `front_door_unlocked`, for the right code on an open numpad |
| Invariants.HandleGrows | game.js:1037-1427 | no interaction clears a flag or drops a found toy |
| Invariants.StepFlagsGrow | game.js:3302-3342 | every action but a new game or a restart only sets flags and appends toys |
| Invariants.RunFlagsGrow | game.js:3302-3342 | over any sequence of actions without a new game or a restart, flags only become true and found toys are only appended |

## Left out

- Rendering, audio, particles, screen shake, toasts, the quest panel, the inventory bar and the interact prompt are left out. They have no effect on the game state.
- Timers are taken as immediate:
  - the 350 ms floor switch of `changeFloor` and `changeFloorTo`;
  - the 500 ms delay before the intro;
  - the save debounce.
- The typewriter's interval timer is a counter. `TypewriterStep` is one firing of the timer.
- Idle hints are left out. They read the wall clock and never change the state; only the hint text they show, `getNextTaskHint`, is modelled.
- `localStorage`, JSON and the try/catch around them are left out. A save is the record `doSaveGame` builds. `loadGame` takes what storage holds as a parameter: absent, unparsable, or a record with possibly missing fields.
- Clearing the save at the start of a new game is left out, since storage is not modelled.
- The outside floor and `outsideStart` are not defined in data/maps.js or game.js, so they are parameters of the model.
- The `requires` fields of the stair records in data/maps.js are never read by the game and are not modelled.
- The title screen is shown only once, at page load, so its New Game button can only start the first game. The model does not track the title screen: its `NewGame` action may happen at any time, and from a state with the ending shown it reaches a new game with the ending overlay still up, which the program never does. After the ending the program offers only `restartGame`, modelled as the `Restart` action.
- game-main.js is not part of this model. It duplicates the entry wiring of game.js.
- Dialogue texts are modelled only by their speaker and their length in UTF-16 code units.
- The portrait of the cat whose dialogue is showing (`dialogueCat`) only affects the display and is not modelled.
- Which direction key wins when several are held is the input of `gameLoop` (`Frame(held)`) and is not modelled. The order is up, down, left, right.
- The numpad's input field is left out. The `code` argument of `NumpadSubmit` stands for its value after `trim()`.
- Script.ScriptLengths: states only the bound 1..3 over all keys. The exact count for each section is in the section lemmas and Script.EntranceLengths.
