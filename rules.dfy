/** The state of game.js (`gameState`, the dialogue globals, the numpad and
    ending overlays) as one value, and each routine that changes it as a
    pure function of that value. The class in engine.dfy performs the same
    routines field by field and is proved equal to these functions; the
    lemmas in behaviour.dfy and invariants.dfy state what the game promises
    about them. */
module Rules {
  import opened Maps
  import Script

  datatype Option<T> = None | Some(value: T)

  datatype Dir = Up | Down | Left | Right

  datatype Player = Player(row: int, col: int, facing: Dir)

  /** The item ids that game.js ever adds to the inventory. */
  datatype Item = Purrpops | FeastPlate | BasementKey | LaundryBasket

  /** `gameState.flags` */
  datatype Flags = Flags(
    aliceFed: bool,
    oliveFed: bool,
    beatriceFed: bool,
    hasBasementKey: bool,
    basementUnlocked: bool,
    hasLaundryBasket: bool,
    laundryCleared: bool,
    sofaSearched: bool,
    gameComplete: bool,
    frontDoorUnlocked: bool,
    catToysFound: seq<string>)

  const DefaultFlags := Flags(false, false, false, false, false, false, false, false, false, false, [])

  /** What a dialogue's completion callback does to the game state.
      `Cosmetic` is a callback that only shows toasts, particles or saves;
      `NoCallback` is the `null` callback. */
  datatype Effect =
    | NoCallback
    | Cosmetic
    | GrantItem(item: Item)
    | OliveReward
    | FloorTo(target: FloorId)
    | OpenNumpad
    | ShowEnding

  /** The dialogue globals: `dialogueActive`, `dialogueQueue`, `dialogueIndex`,
      `dialogueCallback`, and the typewriter's text length, `typewriterIndex`
      and `typewriterDone`. The typewriter's interval timer is running exactly
      when the dialogue is active and the reveal is not done. */
  datatype Dialogue = Dialogue(
    active: bool,
    queue: seq<Script.Message>,
    index: nat,
    callback: Effect,
    textLength: nat,
    typed: nat,
    typedDone: bool)

  /** The dialogue state `hideDialogue` leaves behind. */
  const NoDialogue := Dialogue(false, [], 0, NoCallback, 0, 0, false)

  datatype World = World(
    floor: FloorId,
    player: Player,
    inventory: seq<Item>,
    flags: Flags,
    moving: bool,
    moveProgress: int,
    moveFrom: Option<Pos>,
    moveTo: Option<Pos>,
    dialogue: Dialogue,
    numpadOpen: bool,
    endingShown: bool)

  /** Pixels a slide advances per frame. */
  const MOVE_SPEED: int := 3

  /** The code the front-door callback accepts. */
  const FRONT_DOOR_CODE: string := "3134"

  // ------------------------------------------------------------- inventory

  /** `Array.prototype.indexOf`: the first position of `x`, or -1. */
  function IndexOf<T(==)>(s: seq<T>, x: T): (i: int)
    ensures -1 <= i < |s|
    ensures i == -1 <==> x !in s
    ensures 0 <= i ==> s[i] == x && x !in s[..i]
  {
    if |s| == 0 then -1
    else if s[0] == x then 0
    else
      var j := IndexOf(s[1..], x);
      if j < 0 then -1
      else
        assert s[..j + 1] == [s[0]] + s[1..][..j];
        j + 1
  }

  /** `removeItem`: splice out the first occurrence, if there is one. */
  function RemoveItem(inv: seq<Item>, it: Item): (r: seq<Item>)
    ensures it !in inv ==> r == inv
    ensures it in inv ==> |r| == |inv| - 1 && multiset(r) == multiset(inv) - multiset{it}
  {
    var i := IndexOf(inv, it);
    if i < 0 then inv
    else
      assert inv == inv[..i] + [it] + inv[i + 1..];
      inv[..i] + inv[i + 1..]
  }

  // -------------------------------------------------------- tiles and moves

  /** The tile one step from (row, col) in direction `d`. */
  function Neighbour(row: int, col: int, d: Dir): Pos {
    match d
    case Up => Pos(row - 1, col)
    case Down => Pos(row + 1, col)
    case Left => Pos(row, col - 1)
    case Right => Pos(row, col + 1)
  }

  /** `getFacingTile` */
  function FacingTile(p: Player): Pos {
    Neighbour(p.row, p.col, p.facing)
  }

  /** `floor.grid[row][col]`, with -1 standing for JavaScript's `undefined`
      when either index is outside the arrays. */
  function Tile(f: Floor, row: int, col: int): int {
    if 0 <= row < |f.grid| && 0 <= col < |f.grid[row]| then f.grid[row][col] else -1
  }

  predicate Solid(t: int) {
    t == WALL || t == FURNITURE || t == COUNTER
  }

  /** `isTileBlocked`, as a reference definition: the tile is off the map, a
      wall, furniture or counter, or some interactable stands on it. */
  predicate IsTileBlocked(f: Floor, row: int, col: int) {
    || !InBounds(row, col)
    || Solid(Tile(f, row, col))
    || exists i :: 0 <= i < |f.interactables| && IsAt(f.interactables[i], row, col)
  }

  /** The position of the first interactable on (row, col), or -1. */
  function FindAt(objs: seq<Interactable>, row: int, col: int): (i: int)
    ensures -1 <= i < |objs|
    ensures 0 <= i ==> IsAt(objs[i], row, col)
    ensures 0 <= i ==> forall j :: 0 <= j < i ==> !IsAt(objs[j], row, col)
    ensures i == -1 ==> forall j :: 0 <= j < |objs| ==> !IsAt(objs[j], row, col)
  {
    if |objs| == 0 then -1
    else if IsAt(objs[0], row, col) then 0
    else
      var k := FindAt(objs[1..], row, col);
      if k < 0 then -1 else k + 1
  }

  /** `getInteractableAt`: the first interactable on the tile, if any. */
  function InteractableAt(f: Floor, row: int, col: int): Option<Interactable> {
    var i := FindAt(f.interactables, row, col);
    if i < 0 then None else Some(f.interactables[i])
  }

  /** `changeFloor`, with its deferred part done at once: the player stands on
      the target floor's start tile, facing down. */
  function ChangeFloor(w: World, target: FloorId, outside: Floor): World {
    var s := StartOf(target, outside);
    w.(floor := target, player := Player(s.row, s.col, Down))
  }

  /** `changeFloorTo`: the same, onto a given tile and facing. */
  function ChangeFloorTo(w: World, target: FloorId, row: int, col: int, facing: Dir): World {
    w.(floor := target, player := Player(row, col, facing))
  }

  /** `handleStairTransition`: `None` where the source returns false. */
  function StairTransition(w: World, row: int, col: int, outside: Floor): (r: Option<World>)
    ensures r.Some? ==> r.value.moving == w.moving && r.value.moveTo == w.moveTo
  {
    match w.floor
    case Main =>
      if !InSpan(MainToUpstairs, row, col) then None
      else if w.flags.laundryCleared then Some(ChangeFloor(w, Upstairs, outside))
      else if LaundryBasket in w.inventory then
        Some(Play(ClearLaundry(w), Script.LaundryPileClear, FloorTo(Upstairs)))
      else Some(Play(w, Script.LaundryPileBlocked, NoCallback))
    case Basement =>
      if InSpan(BasementToMain, row, col) then Some(ChangeFloorTo(w, Main, 7, 17, Left)) else None
    case Upstairs =>
      if InSpan(UpstairsToMain, row, col) then Some(ChangeFloorTo(w, Main, 8, 10, Down)) else None
    case Outside => None
  }

  /** Hand in the laundry basket: remove it and mark the stairs cleared. */
  function ClearLaundry(w: World): World {
    w.(inventory := RemoveItem(w.inventory, LaundryBasket), flags := w.flags.(laundryCleared := true))
  }

  /** `tryMove` */
  function TryMove(w: World, d: Dir, outside: Floor): (r: World)
    ensures w.moving ==> r == w
    ensures r.moving && !w.moving ==> r.moveTo == Some(Neighbour(w.player.row, w.player.col, d))
  {
    if w.moving || w.dialogue.active then w
    else
      var turned := w.(player := w.player.(facing := d));
      var t := Neighbour(w.player.row, w.player.col, d);
      var f := FloorOf(w.floor, outside);
      var stairs := if Tile(f, t.row, t.col) == STAIRS then StairTransition(turned, t.row, t.col, outside) else None;
      if stairs.Some? then stairs.value
      else if IsTileBlocked(f, t.row, t.col) then turned
      else turned.(moving := true, moveFrom := Some(Pos(w.player.row, w.player.col)), moveTo := Some(t), moveProgress := 0)
  }

  /** `updateMovement`: one frame of a slide. */
  function UpdateMovement(w: World): World
    requires w.moving ==> w.moveTo.Some?
  {
    if !w.moving then w
    else if w.moveProgress + MOVE_SPEED >= TILE_SIZE then
      w.(player := w.player.(row := w.moveTo.value.row, col := w.moveTo.value.col),
         moving := false, moveProgress := 0, moveFrom := None, moveTo := None)
    else w.(moveProgress := w.moveProgress + MOVE_SPEED)
  }

  // ------------------------------------------------------------- dialogue

  /** `startDialogue`: a missing or empty script is ignored. */
  function StartDialogue(w: World, key: Option<Script.Key>, cb: Effect): World {
    if key.None? then w
    else
      var msgs := Script.Lookup(key.value);
      if |msgs| == 0 then w
      else w.(dialogue := Dialogue(true, msgs, 0, cb, msgs[0].length, 0, false))
  }

  /** `startDialogue` with a key the table has. */
  function Play(w: World, key: Script.Key, cb: Effect): World {
    StartDialogue(w, Some(key), cb)
  }

  predicate TypewriterRunning(d: Dialogue) {
    d.active && !d.typedDone
  }

  /** `finishTypewriter` */
  function FinishTypewriter(d: Dialogue): Dialogue {
    d.(typed := d.textLength, typedDone := true)
  }

  /** One firing of the typewriter's interval timer. */
  function TypewriterTick(d: Dialogue): Dialogue {
    if !TypewriterRunning(d) then d
    else if d.typed + 1 >= d.textLength then FinishTypewriter(d)
    else d.(typed := d.typed + 1)
  }

  /** `showDialogueMessage`: restart the typewriter on the current message. */
  function ShowMessage(d: Dialogue): Dialogue
    requires d.index < |d.queue|
  {
    d.(textLength := d.queue[d.index].length, typed := 0, typedDone := false)
  }

  /** `advanceDialogue` */
  function Advance(w: World, outside: Floor): World {
    var d := w.dialogue;
    if !d.active then w
    else if !d.typedDone then w.(dialogue := FinishTypewriter(d))
    else if d.index + 1 >= |d.queue| then CloseDialogue(w.(dialogue := d.(index := d.index + 1)), outside)
    else w.(dialogue := ShowMessage(d.(index := d.index + 1)))
  }

  /** `closeDialogue`: the callback is taken and cleared, then run. */
  function CloseDialogue(w: World, outside: Floor): World {
    var cb := w.dialogue.callback;
    RunEffect(w.(dialogue := w.dialogue.(active := false, typedDone := false, callback := NoCallback)), cb, outside)
  }

  /** `hideDialogue`: everything reset, no callback run. */
  function HideDialogue(w: World): World {
    w.(dialogue := NoDialogue)
  }

  /** What each completion callback does to the state. */
  function RunEffect(w: World, e: Effect, outside: Floor): World {
    match e
    case NoCallback => w
    case Cosmetic => w
    case GrantItem(it) => w.(inventory := w.inventory + [it])
    case OliveReward => w.(inventory := w.inventory + [LaundryBasket], flags := w.flags.(hasLaundryBasket := true))
    case FloorTo(target) => ChangeFloor(w, target, outside)
    case OpenNumpad => w.(numpadOpen := true)
    case ShowEnding => w.(endingShown := true)
  }

  // ------------------------------------------------------------- the cats

  function Fed(f: Flags, c: CatName): bool {
    match c
    case Alice => f.aliceFed
    case Olive => f.oliveFed
    case Beatrice => f.beatriceFed
  }

  /** Set `<cat>_fed`; feeding Beatrice also completes the game. Written
      field by field: every other flag keeps its value. */
  function MarkFed(f: Flags, c: CatName): Flags {
    f.(aliceFed := f.aliceFed || c == Alice,
       oliveFed := f.oliveFed || c == Olive,
       beatriceFed := f.beatriceFed || c == Beatrice,
       gameComplete := f.gameComplete || c == Beatrice)
  }

  /** The treat each cat eats, and the one it refuses. */
  function Wanted(c: CatName): Item {
    if c == Beatrice then FeastPlate else Purrpops
  }

  function Refused(c: CatName): Item {
    if c == Beatrice then Purrpops else FeastPlate
  }

  function Reward(c: CatName): Effect {
    match c
    case Alice => Cosmetic
    case Olive => OliveReward
    case Beatrice => ShowEnding
  }

  function BeforeKey(c: CatName): Script.Key {
    match c
    case Alice => Script.AliceBefore
    case Olive => Script.OliveBefore
    case Beatrice => Script.BeatriceBefore
  }

  function RefusedKey(c: CatName): Script.Key {
    match c
    case Alice => Script.AliceWrongItem
    case Olive => Script.OliveWrongItem
    case Beatrice => Script.BeatriceWrongItem
  }

  function AfterKey(c: CatName): Script.Key {
    match c
    case Alice => Script.AliceAfter
    case Olive => Script.OliveAfter
    case Beatrice => Script.BeatriceAfter
  }

  /** Beatrice has no "done" script. */
  function DoneKey(c: CatName): Script.Key
    requires c != Beatrice
  {
    if c == Alice then Script.AliceDone else Script.OliveDone
  }

  /** The `cat_alice`, `cat_olive` and `cat_beatrice` cases. */
  function FeedCat(w: World, c: CatName): World {
    if Fed(w.flags, c) then
      (if c == Beatrice then w.(endingShown := true) else Play(w, DoneKey(c), NoCallback))
    else if Refused(c) in w.inventory && Wanted(c) !in w.inventory then
      Play(w, RefusedKey(c), NoCallback)
    else if Wanted(c) in w.inventory then
      Play(w.(inventory := RemoveItem(w.inventory, Wanted(c)), flags := MarkFed(w.flags, c)), AfterKey(c), Reward(c))
    else Play(w, BeforeKey(c), NoCallback)
  }

  // ---------------------------------------------------------- interaction

  /** The script `cat_toy_<id>`, for the ids the table has. */
  function ToyScript(id: string): Option<Script.Key> {
    if id == "jingle_ball" then Some(Script.CatToyJingleBall)
    else if id == "feather_wand" then Some(Script.CatToyFeatherWand)
    else if id == "laser_pointer" then Some(Script.CatToyLaserPointer)
    else None
  }

  /** The front door: through once unlocked, otherwise the numpad. */
  function UseFrontDoor(w: World, outside: Floor): World {
    if w.flags.frontDoorUnlocked then ChangeFloor(w, Main, outside)
    else Play(w, Script.FrontDoorLocked, OpenNumpad)
  }

  /** The pantry cupboard: purrpops, unless both small cats are fed or one
      is already held. */
  function SearchPurrpopsCupboard(w: World): World {
    if w.flags.aliceFed && w.flags.oliveFed then Play(w, Script.CupboardEmpty, NoCallback)
    else if Purrpops in w.inventory then Play(w, Script.CupboardEmpty, NoCallback)
    else Play(w, Script.CupboardPurrpops, GrantItem(Purrpops))
  }

  /** The upstairs cupboard: the feast plate, unless Beatrice is fed or the
      plate is already held. */
  function SearchFeastCupboard(w: World): World {
    if w.flags.beatriceFed || FeastPlate in w.inventory then Play(w, Script.CupboardEmpty, NoCallback)
    else Play(w, Script.CupboardFeast, GrantItem(FeastPlate))
  }

  /** The sofa blanket hides the basement key once Alice is fed. */
  function SearchSofa(w: World): World {
    var fl := w.flags;
    if fl.sofaSearched || fl.hasBasementKey || !fl.aliceFed then Play(w, Script.SofaBlanketEmpty, NoCallback)
    else Play(w.(flags := fl.(sofaSearched := true, hasBasementKey := true)), Script.SofaBlanket, GrantItem(BasementKey))
  }

  /** The basement door: the key opens it for good. */
  function UseBasementDoor(w: World, outside: Floor): World {
    var fl := w.flags;
    if fl.basementUnlocked then ChangeFloor(w, Basement, outside)
    else if BasementKey in w.inventory then
      Play(w.(inventory := RemoveItem(w.inventory, BasementKey), flags := fl.(basementUnlocked := true)),
           Script.BasementDoorUnlock, FloorTo(Basement))
    else Play(w, Script.BasementDoorLocked, NoCallback)
  }

  /** A cat toy is recorded the first time it is found. */
  function PickUpToy(w: World, id: string): World {
    var fl := w.flags;
    if id in fl.catToysFound then Play(w, Script.CatToyFound, NoCallback)
    else StartDialogue(w.(flags := fl.(catToysFound := fl.catToysFound + [id])), ToyScript(id), Cosmetic)
  }

  /** `handleInteraction`: the switch on the interactable's type. */
  function HandleInteraction(w: World, obj: Interactable, outside: Floor): World {
    match obj.kind
    case Flavor(key) => Play(w, key, NoCallback)
    case FrontDoor => UseFrontDoor(w, outside)
    case PurrpopsCupboard => SearchPurrpopsCupboard(w)
    case FeastCupboard => SearchFeastCupboard(w)
    case Cat(c) => FeedCat(w, c)
    case Sofa => SearchSofa(w)
    case BasementDoor => UseBasementDoor(w, outside)
    case Toy(id) => PickUpToy(w, id)
    case Unhandled => w
  }

  /** `tryInteract` */
  function TryInteract(w: World, outside: Floor): World {
    if w.dialogue.active then Advance(w, outside)
    else if w.moving then w
    else
      var t := FacingTile(w.player);
      var obj := InteractableAt(FloorOf(w.floor, outside), t.row, t.col);
      if obj.None? then w else HandleInteraction(w, obj.value, outside)
  }

  datatype Outcome = Outcome(handled: bool, world: World)

  /** `checkLaundryInteraction`: facing the blocked stairs with the basket
      clears them without climbing. */
  function CheckLaundry(w: World): Outcome {
    if w.floor != Main || w.flags.laundryCleared then Outcome(false, w)
    else
      var t := FacingTile(w.player);
      if InSpan(MainToUpstairs, t.row, t.col) && LaundryBasket in w.inventory then
        Outcome(true, Play(ClearLaundry(w), Script.LaundryPileClear, Cosmetic))
      else Outcome(false, w)
  }

  /** The interact key (E, Space or Enter); ignored while the numpad is open. */
  function PressInteract(w: World, outside: Floor): World {
    if w.numpadOpen then w
    else if w.dialogue.active then Advance(w, outside)
    else
      var o := CheckLaundry(w);
      if o.handled then o.world else TryInteract(w, outside)
  }

  /** One `gameLoop` frame: try the held direction, then slide. */
  function LoopFrame(w: World, held: Option<Dir>, outside: Floor): World
    requires w.moving ==> w.moveTo.Some?
  {
    var w1 := if !w.dialogue.active && !w.moving && held.Some? then TryMove(w, held.value, outside) else w;
    assert w1.moving ==> w1.moveTo.Some?;
    UpdateMovement(w1)
  }

  // ------------------------------------------------------------ the numpad

  /** `hideNumpad` */
  function HideNumpad(w: World): World {
    w.(numpadOpen := false)
  }

  /** `numpadSubmit` followed by the front door's numpad callback. */
  function NumpadSubmit(w: World, code: string, outside: Floor): World {
    if |code| < 4 then w
    else if !w.numpadOpen then w
    else if code == FRONT_DOOR_CODE then
      ChangeFloor(w.(numpadOpen := false, flags := w.flags.(frontDoorUnlocked := true)), Main, outside)
    else HideNumpad(w)
  }

  // ---------------------------------------------------------- a new game

  /** The part of `startNewGame` before the intro: every run-time field
      reset and the player outside. The ending overlay is left as it was. */
  function ResetWorld(w: World, outsideStart: Pos): World {
    World(Outside, Player(outsideStart.row, outsideStart.col, Down), [], DefaultFlags,
          false, 0, None, None, NoDialogue, false, w.endingShown)
  }

  /** `startNewGame`: the reset, then the intro (its 500 ms delay taken as
      immediate). */
  function StartNewGame(w: World, outsideStart: Pos): World {
    StartDialogue(ResetWorld(w, outsideStart), Some(Script.Intro), NoCallback)
  }

  /** `hideEnding`: the ending overlay is taken down. */
  function HideEnding(w: World): World {
    w.(endingShown := false)
  }

  /** `restartGame`, the ending screen's button: the overlay is hidden, then
      a new game starts. */
  function RestartGame(w: World, outsideStart: Pos): World {
    StartNewGame(HideEnding(w), outsideStart)
  }

  // ----------------------------------------------------------------- hint

  /** `getNextTaskHint` */
  function NextTaskHint(w: World): Option<string> {
    var fl := w.flags;
    var inv := w.inventory;
    if fl.gameComplete then None
    else if !fl.frontDoorUnlocked then Some("Check the house plaque outside for the front door code.")
    else if !fl.aliceFed then
      Some(if Purrpops in inv then "Find Alice and give her the Purrpops."
           else "Search the kitchen cupboards for Purrpops for Alice.")
    else if !fl.hasBasementKey && !fl.basementUnlocked then
      Some("Alice gave a clue\U{00E2}\U{20AC}\U{201D}check under the sofa blanket.")
    else if !fl.basementUnlocked then
      Some(if BasementKey in inv then "Use the Basement Key on the basement door."
           else "Look for the Basement Key near the sofa.")
    else if !fl.oliveFed then
      Some(if Purrpops in inv then "Find Olive in the basement and feed her."
           else "Grab more Purrpops from the kitchen, then visit Olive downstairs.")
    else if !fl.laundryCleared then
      Some(if LaundryBasket in inv then "Take the Laundry Basket to the blocked stairs on the main floor."
           else "Talk to Olive in the basement to get help with the blocked stairs.")
    else if !fl.beatriceFed then
      Some(if FeastPlate in inv then "Find Beatrice upstairs and give her the feast plate."
           else "Find a Shrimp & Salmon Feast plate in the kitchen cupboards.")
    else None
  }

  // ---------------------------------------------------------- save / load

  datatype SavedPlayer = SavedPlayer(row: int, col: int, facing: Option<Dir>)

  /** A stored `flags` object: a key may be missing. */
  datatype SavedFlags = SavedFlags(
    aliceFed: Option<bool>,
    oliveFed: Option<bool>,
    beatriceFed: Option<bool>,
    hasBasementKey: Option<bool>,
    basementUnlocked: Option<bool>,
    hasLaundryBasket: Option<bool>,
    laundryCleared: Option<bool>,
    sofaSearched: Option<bool>,
    gameComplete: Option<bool>,
    frontDoorUnlocked: Option<bool>,
    catToysFound: Option<seq<string>>)

  /** The parsed save record; a missing (or falsy) field is `None`. */
  datatype SaveRecord = SaveRecord(
    currentFloor: Option<FloorId>,
    player: Option<SavedPlayer>,
    inventory: Option<seq<Item>>,
    flags: Option<SavedFlags>)

  /** What storage holds under the save key. */
  datatype Stored = Absent | Unparsable | Present(record: SaveRecord)

  /** `doSaveGame`: the record it serialises. */
  function DoSaveGame(w: World): SaveRecord {
    var fl := w.flags;
    SaveRecord(
      Some(w.floor),
      Some(SavedPlayer(w.player.row, w.player.col, Some(w.player.facing))),
      Some(w.inventory),
      Some(SavedFlags(Some(fl.aliceFed), Some(fl.oliveFed), Some(fl.beatriceFed), Some(fl.hasBasementKey),
                      Some(fl.basementUnlocked), Some(fl.hasLaundryBasket), Some(fl.laundryCleared),
                      Some(fl.sofaSearched), Some(fl.gameComplete), Some(fl.frontDoorUnlocked),
                      Some(fl.catToysFound))))
  }

  function Or<T>(o: Option<T>, dflt: T): T {
    if o.Some? then o.value else dflt
  }

  /** `Object.assign(flags, stored)`: each stored key overwrites its flag. */
  function MergeFlags(f: Flags, s: SavedFlags): Flags {
    Flags(Or(s.aliceFed, f.aliceFed), Or(s.oliveFed, f.oliveFed), Or(s.beatriceFed, f.beatriceFed),
          Or(s.hasBasementKey, f.hasBasementKey), Or(s.basementUnlocked, f.basementUnlocked),
          Or(s.hasLaundryBasket, f.hasLaundryBasket), Or(s.laundryCleared, f.laundryCleared),
          Or(s.sofaSearched, f.sofaSearched), Or(s.gameComplete, f.gameComplete),
          Or(s.frontDoorUnlocked, f.frontDoorUnlocked), Or(s.catToysFound, f.catToysFound))
  }

  const NoStoredFlags := SavedFlags(None, None, None, None, None, None, None, None, None, None, None)

  /** `loadGame`. A record without a player throws after `currentFloor` has
      already been assigned, so that one assignment survives the failure. */
  function LoadGame(w: World, s: Stored): Outcome {
    match s
    case Absent => Outcome(false, w)
    case Unparsable => Outcome(false, w)
    case Present(rec) =>
      var w1 := w.(floor := Or(rec.currentFloor, Outside));
      if rec.player.None? then Outcome(false, w1)
      else
        var p := rec.player.value;
        Outcome(true, w1.(player := Player(p.row, p.col, Or(p.facing, Down)),
                          inventory := Or(rec.inventory, []),
                          flags := MergeFlags(w.flags, Or(rec.flags, NoStoredFlags))))
  }

  // --------------------------------------------------- the player's actions

  /** The inputs the game reacts to. `Frame` is one animation frame with the
      direction key held (if any); `TypewriterStep` is one firing of the
      typewriter timer; `Submit` and `CancelNumpad` are the numpad's buttons;
      `NewGame` is the title screen's button and `Restart` the ending
      screen's. */
  datatype Action =
    | Frame(held: Option<Dir>)
    | Interact
    | TypewriterStep
    | Submit(code: string)
    | CancelNumpad
    | NewGame
    | Restart

  function Step(w: World, a: Action, outside: Floor, outsideStart: Pos): World
    requires w.moving ==> w.moveTo.Some?
  {
    match a
    case Frame(held) => LoopFrame(w, held, outside)
    case Interact => PressInteract(w, outside)
    case TypewriterStep => w.(dialogue := TypewriterTick(w.dialogue))
    case Submit(code) => NumpadSubmit(w, code, outside)
    case CancelNumpad => HideNumpad(w)
    case NewGame => StartNewGame(w, outsideStart)
    case Restart => RestartGame(w, outsideStart)
  }
}
