/** The game as game.js runs it: `gameState`, the dialogue globals and the
    two overlays as the fields of one object, and each routine as a method
    that updates those fields in place. Every method is proved to leave the
    object in the state the matching function of module Rules computes. */
module Engine {
  import opened Maps
  import opened Rules
  import Script

  class Game {
    /** The outside floor and its start tile, defined outside data/maps.js. */
    const outside: Floor
    const outsideStart: Pos

    // gameState
    var currentFloor: FloorId
    var player: Player
    var inventory: seq<Item>
    var flags: Flags
    var moving: bool
    var moveProgress: int
    var moveFrom: Option<Pos>
    var moveTo: Option<Pos>

    // the dialogue and typewriter globals
    var dialogueActive: bool
    var dialogueQueue: seq<Script.Message>
    var dialogueIndex: nat
    var dialogueCallback: Effect
    var typewriterLength: nat
    var typewriterIndex: nat
    var typewriterDone: bool

    // the numpad overlay (open exactly when `numpadCallback` is set) and the ending overlay
    var numpadOpen: bool
    var endingShown: bool

    function Snapshot(): World
      reads this
    {
      World(currentFloor, player, inventory, flags, moving, moveProgress, moveFrom, moveTo,
            Dialogue(dialogueActive, dialogueQueue, dialogueIndex, dialogueCallback,
                     typewriterLength, typewriterIndex, typewriterDone),
            numpadOpen, endingShown)
    }

    /** A slide always knows where it is going. */
    predicate Valid()
      reads this
    {
      moving ==> moveTo.Some?
    }

    /** The state at page load: the `gameState` literal and the globals'
        initial values. */
    constructor (outside: Floor, outsideStart: Pos)
      ensures this.outside == outside && this.outsideStart == outsideStart
      ensures Snapshot() == World(Outside, Player(outsideStart.row, outsideStart.col, Down), [], DefaultFlags,
                                  false, 0, None, None, NoDialogue, false, false)
      ensures Valid()
    {
      this.outside := outside;
      this.outsideStart := outsideStart;
      currentFloor := Outside;
      player := Player(outsideStart.row, outsideStart.col, Down);
      inventory := [];
      flags := DefaultFlags;
      moving := false;
      moveProgress := 0;
      moveFrom := None;
      moveTo := None;
      dialogueActive := false;
      dialogueQueue := [];
      dialogueIndex := 0;
      dialogueCallback := NoCallback;
      typewriterLength := 0;
      typewriterIndex := 0;
      typewriterDone := false;
      numpadOpen := false;
      endingShown := false;
    }

    // ----------------------------------------------------------- inventory

    /** `addItem` */
    method AddItem(it: Item)
      requires Valid()
      modifies this
      ensures Snapshot() == old(Snapshot()).(inventory := old(inventory) + [it])
      ensures Valid()
    {
      inventory := inventory + [it];
    }

    /** `removeItem` */
    method RemoveItem(it: Item)
      requires Valid()
      modifies this
      ensures Snapshot() == old(Snapshot()).(inventory := Rules.RemoveItem(old(inventory), it))
      ensures Valid()
    {
      var idx := IndexOf(inventory, it);
      if idx >= 0 {
        inventory := inventory[..idx] + inventory[idx + 1..];
      }
    }

    // ------------------------------------------------------ tiles and moves

    /** `isTileBlocked`: bounds, then the tile code, then a scan of the
        floor's interactables. */
    method IsTileBlocked(floor: Floor, row: int, col: int) returns (blocked: bool)
      ensures blocked == Rules.IsTileBlocked(floor, row, col)
    {
      if row < 0 || row >= MAP_ROWS || col < 0 || col >= MAP_COLS {
        return true;
      }
      var tile := Tile(floor, row, col);
      if tile == WALL || tile == FURNITURE || tile == COUNTER {
        return true;
      }
      var objs := floor.interactables;
      var i := 0;
      while i < |objs|
        invariant 0 <= i <= |objs|
        invariant forall j :: 0 <= j < i ==> !IsAt(objs[j], row, col)
      {
        if objs[i].row == row && objs[i].col == col {
          return true;
        }
        i := i + 1;
      }
      return false;
    }

    /** `getInteractableAt`: the first interactable of the current floor on
        the tile. */
    method GetInteractableAt(row: int, col: int) returns (obj: Option<Interactable>)
      ensures obj == InteractableAt(FloorOf(currentFloor, outside), row, col)
    {
      var objs := FloorOf(currentFloor, outside).interactables;
      var i := 0;
      while i < |objs|
        invariant 0 <= i <= |objs|
        invariant forall j :: 0 <= j < i ==> !IsAt(objs[j], row, col)
      {
        if objs[i].row == row && objs[i].col == col {
          FirstMatch(objs, row, col, i);
          return Some(objs[i]);
        }
        i := i + 1;
      }
      return None;
    }

    /** `changeFloor` */
    method ChangeFloor(target: FloorId)
      requires Valid()
      modifies this
      ensures Snapshot() == Rules.ChangeFloor(old(Snapshot()), target, outside)
      ensures Valid()
    {
      currentFloor := target;
      var floor := FloorOf(target, outside);
      player := Player(floor.start.row, floor.start.col, Down);
    }

    /** `changeFloorTo` */
    method ChangeFloorTo(target: FloorId, row: int, col: int, facing: Dir)
      requires Valid()
      modifies this
      ensures Snapshot() == Rules.ChangeFloorTo(old(Snapshot()), target, row, col, facing)
      ensures Valid()
    {
      currentFloor := target;
      player := Player(row, col, facing);
    }

    /** `handleStairTransition`: true when the step was taken over. */
    method HandleStairTransition(row: int, col: int) returns (handled: bool)
      requires Valid()
      modifies this
      ensures handled == StairTransition(old(Snapshot()), row, col, outside).Some?
      ensures handled ==> Snapshot() == StairTransition(old(Snapshot()), row, col, outside).value
      ensures !handled ==> Snapshot() == old(Snapshot())
      ensures Valid()
    {
      if currentFloor == Main {
        if InSpan(MainToUpstairs, row, col) {
          if !flags.laundryCleared {
            if LaundryBasket in inventory {
              RemoveItem(LaundryBasket);
              flags := flags.(laundryCleared := true);
              StartDialogue(Some(Script.LaundryPileClear), FloorTo(Upstairs));
            } else {
              StartDialogue(Some(Script.LaundryPileBlocked), NoCallback);
            }
            return true;
          }
          ChangeFloor(Upstairs);
          return true;
        }
      } else if currentFloor == Basement {
        if InSpan(BasementToMain, row, col) {
          ChangeFloorTo(Main, 7, 17, Left);
          return true;
        }
      } else if currentFloor == Upstairs {
        if InSpan(UpstairsToMain, row, col) {
          ChangeFloorTo(Main, 8, 10, Down);
          return true;
        }
      }
      return false;
    }

    /** `tryMove` */
    method TryMove(dir: Dir)
      requires Valid()
      modifies this
      ensures Snapshot() == Rules.TryMove(old(Snapshot()), dir, outside)
      ensures Valid()
    {
      if moving || dialogueActive {
        return;
      }
      player := player.(facing := dir);
      var t := Neighbour(player.row, player.col, dir);
      var floor := FloorOf(currentFloor, outside);
      if Tile(floor, t.row, t.col) == STAIRS {
        var handled := HandleStairTransition(t.row, t.col);
        if handled {
          return;
        }
      }
      var blocked := IsTileBlocked(floor, t.row, t.col);
      if blocked {
        return;
      }
      StartSlide(Pos(player.row, player.col), t);
    }

    /** The tail of `tryMove`: a slide from `from` to `to` begins. */
    method StartSlide(from: Pos, to: Pos)
      modifies this
      ensures Snapshot() == old(Snapshot()).(moving := true, moveFrom := Some(from), moveTo := Some(to), moveProgress := 0)
    {
      moving := true;
      moveFrom := Some(from);
      moveTo := Some(to);
      moveProgress := 0;
    }

    /** `updateMovement` */
    method UpdateMovement()
      requires Valid()
      modifies this
      ensures Snapshot() == Rules.UpdateMovement(old(Snapshot()))
      ensures Valid()
    {
      if !moving {
        return;
      }
      moveProgress := moveProgress + MOVE_SPEED;
      if moveProgress >= TILE_SIZE {
        player := player.(row := moveTo.value.row, col := moveTo.value.col);
        StopSlide();
      }
    }

    /** One `gameLoop` frame. */
    method GameLoopFrame(held: Option<Dir>)
      requires Valid()
      modifies this
      ensures Snapshot() == LoopFrame(old(Snapshot()), held, outside)
      ensures Valid()
    {
      if !dialogueActive && !moving && held.Some? {
        TryMove(held.value);
      }
      UpdateMovement();
    }

    // ------------------------------------------------------------ dialogue

    /** `startDialogue` */
    method StartDialogue(key: Option<Script.Key>, cb: Effect)
      requires Valid()
      modifies this
      ensures Snapshot() == Rules.StartDialogue(old(Snapshot()), key, cb)
      ensures Valid()
    {
      if key.None? {
        return;
      }
      var messages := Script.Lookup(key.value);
      if |messages| == 0 {
        return;
      }
      OpenQueue(messages, cb);
      ShowDialogueMessage();
    }

    /** The dialogue globals `startDialogue` sets before showing the first
        message. */
    method OpenQueue(messages: seq<Script.Message>, cb: Effect)
      modifies this
      ensures Snapshot() == old(Snapshot()).(dialogue := old(Snapshot()).dialogue.(
                queue := messages, index := 0, callback := cb, active := true))
    {
      dialogueQueue := messages;
      dialogueIndex := 0;
      dialogueCallback := cb;
      dialogueActive := true;
    }

    /** `showDialogueMessage`, which starts the typewriter on the current
        message. */
    method ShowDialogueMessage()
      modifies this
      ensures old(dialogueIndex < |dialogueQueue|) ==>
        Snapshot() == old(Snapshot()).(dialogue := ShowMessage(old(Snapshot().dialogue)))
      ensures old(dialogueIndex >= |dialogueQueue|) ==> Snapshot() == old(Snapshot())
    {
      if dialogueIndex >= |dialogueQueue| {
        return;
      }
      typewriterLength := dialogueQueue[dialogueIndex].length;
      typewriterIndex := 0;
      typewriterDone := false;
    }

    /** `finishTypewriter` */
    method FinishTypewriter()
      modifies this
      ensures Snapshot() == old(Snapshot()).(dialogue := Rules.FinishTypewriter(old(Snapshot().dialogue)))
    {
      typewriterIndex := typewriterLength;
      typewriterDone := true;
    }

    /** One firing of the typewriter's interval timer. */
    method TypewriterTick()
      requires Valid()
      modifies this
      ensures Snapshot() == old(Snapshot()).(dialogue := Rules.TypewriterTick(old(Snapshot().dialogue)))
      ensures Valid()
    {
      if !dialogueActive || typewriterDone {
        return;
      }
      typewriterIndex := typewriterIndex + 1;
      if typewriterIndex >= typewriterLength {
        FinishTypewriter();
      }
    }

    /** `advanceDialogue` */
    method AdvanceDialogue()
      requires Valid()
      modifies this
      ensures Snapshot() == Advance(old(Snapshot()), outside)
      ensures Valid()
    {
      if !dialogueActive {
        return;
      }
      if !typewriterDone {
        FinishTypewriter();
        return;
      }
      NextIndex();
      if dialogueIndex >= |dialogueQueue| {
        CloseDialogue();
        return;
      }
      ShowDialogueMessage();
    }

    /** The `dialogueIndex++` of `advanceDialogue`. */
    method NextIndex()
      modifies this
      ensures Snapshot() == old(Snapshot()).(dialogue := old(Snapshot()).dialogue.(index := old(dialogueIndex) + 1))
      ensures moving == old(moving) && moveTo == old(moveTo)
    {
      dialogueIndex := dialogueIndex + 1;
    }

    /** `closeDialogue`: the callback is cleared before it runs. */
    method CloseDialogue()
      requires Valid()
      modifies this
      ensures Snapshot() == Rules.CloseDialogue(old(Snapshot()), outside)
      ensures Valid()
    {
      dialogueActive := false;
      typewriterDone := false;
      var cb := dialogueCallback;
      dialogueCallback := NoCallback;
      RunCallback(cb);
    }

    /** The body of a completion callback. */
    method RunCallback(e: Effect)
      requires Valid()
      modifies this
      ensures Snapshot() == RunEffect(old(Snapshot()), e, outside)
      ensures Valid()
    {
      match e
      case NoCallback =>
      case Cosmetic =>
      case GrantItem(it) =>
        AddItem(it);
      case OliveReward =>
        AddItem(LaundryBasket);
        flags := flags.(hasLaundryBasket := true);
      case FloorTo(target) =>
        ChangeFloor(target);
      case OpenNumpad =>
        numpadOpen := true;
      case ShowEnding =>
        ShowEnding();
    }

    /** `hideDialogue` */
    method HideDialogue()
      requires Valid()
      modifies this
      ensures Snapshot() == Rules.HideDialogue(old(Snapshot()))
      ensures Valid()
    {
      ClearDialogueState();
      ClearTypewriter();
    }

    /** The first half of `hideDialogue`: the dialogue globals. */
    method ClearDialogueState()
      modifies this
      ensures Snapshot() == old(Snapshot()).(dialogue := old(Snapshot()).dialogue.(
                active := false, queue := [], index := 0, callback := NoCallback))
    {
      dialogueActive := false;
      dialogueQueue := [];
      dialogueIndex := 0;
      dialogueCallback := NoCallback;
    }

    /** The second half of `hideDialogue`: the typewriter. */
    method ClearTypewriter()
      modifies this
      ensures Snapshot() == old(Snapshot()).(dialogue := old(Snapshot()).dialogue.(
                textLength := 0, typed := 0, typedDone := false))
    {
      typewriterLength := 0;
      typewriterIndex := 0;
      typewriterDone := false;
    }

    // --------------------------------------------------------- interaction

    /** `showEnding` */
    method ShowEnding()
      requires Valid()
      modifies this
      ensures Snapshot() == old(Snapshot()).(endingShown := true)
      ensures Valid()
    {
      endingShown := true;
    }

    /** The three cat cases of `handleInteraction`. */
    method FeedCat(c: CatName)
      requires Valid()
      modifies this
      ensures Snapshot() == Rules.FeedCat(old(Snapshot()), c)
      ensures Valid()
    {
      if Fed(flags, c) {
        if c == Beatrice {
          ShowEnding();
        } else {
          StartDialogue(Some(DoneKey(c)), NoCallback);
        }
      } else if Refused(c) in inventory && Wanted(c) !in inventory {
        StartDialogue(Some(RefusedKey(c)), NoCallback);
      } else if Wanted(c) in inventory {
        Feed(c);
      } else {
        StartDialogue(Some(BeforeKey(c)), NoCallback);
      }
    }

    /** A cat eats the treat it wants: the treat is used up and the cat
        marked fed before its "after" dialogue opens. */
    method Feed(c: CatName)
      requires Valid()
      modifies this
      ensures Snapshot() == Play(old(Snapshot()).(inventory := Rules.RemoveItem(old(inventory), Wanted(c)),
                                                  flags := MarkFed(old(flags), c)), AfterKey(c), Reward(c))
      ensures Valid()
    {
      RemoveItem(Wanted(c));
      flags := MarkFed(flags, c);
      StartDialogue(Some(AfterKey(c)), Reward(c));
    }

    /** `handleInteraction` */
    method HandleInteraction(obj: Interactable)
      requires Valid()
      modifies this
      ensures Snapshot() == Rules.HandleInteraction(old(Snapshot()), obj, outside)
      ensures Valid()
    {
      match obj.kind
      case Flavor(key) =>
        StartDialogue(Some(key), NoCallback);
      case FrontDoor =>
        UseFrontDoor();
      case PurrpopsCupboard =>
        SearchPurrpopsCupboard();
      case FeastCupboard =>
        SearchFeastCupboard();
      case Cat(c) =>
        FeedCat(c);
      case Sofa =>
        SearchSofa();
      case BasementDoor =>
        UseBasementDoor();
      case Toy(id) =>
        PickUpToy(id);
      case Unhandled =>
    }

    /** The front door case of `handleInteraction`. */
    method UseFrontDoor()
      requires Valid()
      modifies this
      ensures Snapshot() == Rules.UseFrontDoor(old(Snapshot()), outside)
      ensures Valid()
    {
      if flags.frontDoorUnlocked {
        ChangeFloor(Main);
      } else {
        StartDialogue(Some(Script.FrontDoorLocked), OpenNumpad);
      }
    }

    /** The Purrpops cupboard case of `handleInteraction`. */
    method SearchPurrpopsCupboard()
      requires Valid()
      modifies this
      ensures Snapshot() == Rules.SearchPurrpopsCupboard(old(Snapshot()))
      ensures Valid()
    {
      if flags.aliceFed && flags.oliveFed {
        StartDialogue(Some(Script.CupboardEmpty), NoCallback);
      } else if Purrpops in inventory {
        StartDialogue(Some(Script.CupboardEmpty), NoCallback);
      } else {
        StartDialogue(Some(Script.CupboardPurrpops), GrantItem(Purrpops));
      }
    }

    /** The feast cupboard case of `handleInteraction`. */
    method SearchFeastCupboard()
      requires Valid()
      modifies this
      ensures Snapshot() == Rules.SearchFeastCupboard(old(Snapshot()))
      ensures Valid()
    {
      if flags.beatriceFed || FeastPlate in inventory {
        StartDialogue(Some(Script.CupboardEmpty), NoCallback);
      } else {
        StartDialogue(Some(Script.CupboardFeast), GrantItem(FeastPlate));
      }
    }

    /** The sofa case of `handleInteraction`. */
    method SearchSofa()
      requires Valid()
      modifies this
      ensures Snapshot() == Rules.SearchSofa(old(Snapshot()))
      ensures Valid()
    {
      if flags.sofaSearched || flags.hasBasementKey || !flags.aliceFed {
        StartDialogue(Some(Script.SofaBlanketEmpty), NoCallback);
      } else {
        flags := flags.(sofaSearched := true, hasBasementKey := true);
        StartDialogue(Some(Script.SofaBlanket), GrantItem(BasementKey));
      }
    }

    /** The basement door case of `handleInteraction`. */
    method UseBasementDoor()
      requires Valid()
      modifies this
      ensures Snapshot() == Rules.UseBasementDoor(old(Snapshot()), outside)
      ensures Valid()
    {
      if flags.basementUnlocked {
        ChangeFloor(Basement);
      } else if BasementKey in inventory {
        RemoveItem(BasementKey);
        flags := flags.(basementUnlocked := true);
        StartDialogue(Some(Script.BasementDoorUnlock), FloorTo(Basement));
      } else {
        StartDialogue(Some(Script.BasementDoorLocked), NoCallback);
      }
    }

    /** The cat toy case of `handleInteraction`. */
    method PickUpToy(id: string)
      requires Valid()
      modifies this
      ensures Snapshot() == Rules.PickUpToy(old(Snapshot()), id)
      ensures Valid()
    {
      if id in flags.catToysFound {
        StartDialogue(Some(Script.CatToyFound), NoCallback);
      } else {
        flags := flags.(catToysFound := flags.catToysFound + [id]);
        StartDialogue(ToyScript(id), Cosmetic);
      }
    }

    /** `tryInteract` */
    method TryInteract()
      requires Valid()
      modifies this
      ensures Snapshot() == Rules.TryInteract(old(Snapshot()), outside)
      ensures Valid()
    {
      if dialogueActive {
        AdvanceDialogue();
        return;
      }
      if moving {
        return;
      }
      var t := FacingTile(player);
      var obj := GetInteractableAt(t.row, t.col);
      if obj.Some? {
        HandleInteraction(obj.value);
      }
    }

    /** `checkLaundryInteraction` */
    method CheckLaundryInteraction() returns (handled: bool)
      requires Valid()
      modifies this
      ensures handled == CheckLaundry(old(Snapshot())).handled
      ensures Snapshot() == CheckLaundry(old(Snapshot())).world
      ensures Valid()
    {
      if currentFloor != Main || flags.laundryCleared {
        return false;
      }
      var t := FacingTile(player);
      if InSpan(MainToUpstairs, t.row, t.col) && LaundryBasket in inventory {
        RemoveItem(LaundryBasket);
        flags := flags.(laundryCleared := true);
        StartDialogue(Some(Script.LaundryPileClear), Cosmetic);
        return true;
      }
      return false;
    }

    /** The keydown handler's interact branch. */
    method PressInteract()
      requires Valid()
      modifies this
      ensures Snapshot() == Rules.PressInteract(old(Snapshot()), outside)
      ensures Valid()
    {
      if numpadOpen {
        return;
      }
      if dialogueActive {
        AdvanceDialogue();
      } else {
        var handled := CheckLaundryInteraction();
        if !handled {
          TryInteract();
        }
      }
    }

    // ------------------------------------------------------------- numpad

    /** `hideNumpad` */
    method HideNumpad()
      requires Valid()
      modifies this
      ensures Snapshot() == Rules.HideNumpad(old(Snapshot()))
      ensures Valid()
    {
      numpadOpen := false;
    }

    /** `numpadSubmit`, running the front door's callback. */
    method NumpadSubmit(code: string)
      requires Valid()
      modifies this
      ensures Snapshot() == Rules.NumpadSubmit(old(Snapshot()), code, outside)
      ensures Valid()
    {
      if |code| < 4 {
        return;
      }
      var hadCallback := numpadOpen;
      HideNumpad();
      if hadCallback {
        if code == FRONT_DOOR_CODE {
          flags := flags.(frontDoorUnlocked := true);
          ChangeFloor(Main);
        }
      }
    }

    // ---------------------------------------------------------- new game

    /** `hideEnding` */
    method HideEnding()
      requires Valid()
      modifies this
      ensures Snapshot() == Rules.HideEnding(old(Snapshot()))
      ensures Valid()
    {
      endingShown := false;
    }

    /** `restartGame`, the ending screen's button. */
    method RestartGame()
      requires Valid()
      modifies this
      ensures Snapshot() == Rules.RestartGame(old(Snapshot()), outsideStart)
      ensures Valid()
    {
      HideEnding();
      StartNewGame();
    }

    /** `startNewGame` */
    method StartNewGame()
      modifies this
      ensures Snapshot() == Rules.StartNewGame(old(Snapshot()), outsideStart)
      ensures Valid()
    {
      ResetRuntimeState();
      StartDialogue(Some(Script.Intro), NoCallback);
    }

    /** The resets `startNewGame` performs before the intro is scheduled.
        Its own `dialogueActive`/`dialogueQueue` assignments are repeated by
        `hideDialogue` and are not written twice here. */
    method ResetRuntimeState()
      modifies this
      ensures Snapshot() == ResetWorld(old(Snapshot()), outsideStart)
      ensures endingShown == old(endingShown)
    {
      StopSlide();
      HideNumpad();
      HideDialogue();
      currentFloor := Outside;
      player := Player(outsideStart.row, outsideStart.col, Down);
      inventory := [];
      flags := DefaultFlags;
    }

    /** The slide in progress is dropped. */
    method StopSlide()
      modifies this
      ensures Snapshot() == old(Snapshot()).(moving := false, moveProgress := 0, moveFrom := None, moveTo := None)
    {
      moving := false;
      moveProgress := 0;
      moveFrom := None;
      moveTo := None;
    }

    // -------------------------------------------------------- save / load

    /** `doSaveGame`: the record it writes. */
    method DoSaveGame() returns (rec: SaveRecord)
      ensures rec == Rules.DoSaveGame(Snapshot())
    {
      rec := Rules.DoSaveGame(Snapshot());
    }

    /** `loadGame` */
    method LoadGame(s: Stored) returns (ok: bool)
      requires Valid()
      modifies this
      ensures ok == Rules.LoadGame(old(Snapshot()), s).handled
      ensures Snapshot() == Rules.LoadGame(old(Snapshot()), s).world
      ensures Valid()
    {
      if !s.Present? {
        return false;
      }
      var data := s.record;
      currentFloor := Or(data.currentFloor, Outside);
      if data.player.None? {
        return false;
      }
      var p := data.player.value;
      Restore(Player(p.row, p.col, Or(p.facing, Down)), Or(data.inventory, []),
              MergeFlags(flags, Or(data.flags, NoStoredFlags)));
      return true;
    }

    /** The assignments of `loadGame` after the floor. */
    method Restore(p: Player, inv: seq<Item>, fl: Flags)
      modifies this
      ensures Snapshot() == old(Snapshot()).(player := p, inventory := inv, flags := fl)
    {
      player := p;
      inventory := inv;
      flags := fl;
    }
  }

  /** The scan's first hit is the first match `FindAt` names. */
  lemma FirstMatch(objs: seq<Interactable>, row: int, col: int, i: int)
    requires 0 <= i < |objs| && IsAt(objs[i], row, col)
    requires forall j :: 0 <= j < i ==> !IsAt(objs[j], row, col)
    ensures FindAt(objs, row, col) == i
  {
  }
}
