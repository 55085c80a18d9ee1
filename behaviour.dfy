/** What the game's routines promise, case by case: each lemma fixes one
    branch of a routine by its precondition and states what that branch
    does to the state. The invariant lemmas in invariants.dfy are built from
    these. */
module Behaviour {
  import opened Maps
  import opened Rules
  import Script

  /** `r` is `w` with the script `key` opened on its first message, that
      message's reveal just started, and `cb` waiting for the end of the
      script; nothing else differs. */
  predicate Opens(w: World, r: World, key: Script.Key, cb: Effect) {
    var msgs := Script.Lookup(key);
    && msgs != []
    && r == w.(dialogue := Dialogue(true, msgs, 0, cb, msgs[0].length, 0, false))
  }

  // ---------------------------------------------------------------- dialogue

  /** `startDialogue` on a key the table lacks does nothing at all. */
  lemma StartWithoutScript(w: World, cb: Effect)
    ensures StartDialogue(w, None, cb) == w
  {
  }

  /** Every key the game plays exists and is non-empty, so playing it opens
      the dialogue. */
  lemma PlayOpens(w: World, key: Script.Key, cb: Effect)
    ensures Opens(w, Play(w, key, cb), key, cb)
  {
    Script.ScriptLengths(key);
  }

  /** An advance with no dialogue open does nothing. */
  lemma AdvanceWhenClosed(w: World, outside: Floor)
    requires !w.dialogue.active
    ensures Advance(w, outside) == w
  {
  }

  /** While the reveal runs, an advance only completes the reveal: the same
      message stays up and the callback stays pending. */
  lemma AdvanceWhileTyping(w: World, outside: Floor)
    requires w.dialogue.active && !w.dialogue.typedDone
    ensures var r := Advance(w, outside);
      && r.dialogue == w.dialogue.(typed := w.dialogue.textLength, typedDone := true)
      && r == w.(dialogue := r.dialogue)
  {
  }

  /** Once the reveal is done, an advance before the last message shows the
      next message from its start, keeping the callback. */
  lemma AdvanceToNext(w: World, outside: Floor)
    requires w.dialogue.active && w.dialogue.typedDone && w.dialogue.index + 1 < |w.dialogue.queue|
    ensures var r := Advance(w, outside);
      var i := w.dialogue.index + 1;
      && r.dialogue == w.dialogue.(index := i, textLength := w.dialogue.queue[i].length, typed := 0, typedDone := false)
      && r == w.(dialogue := r.dialogue)
  {
  }

  /** An advance past the last message closes the dialogue, clears the
      callback and then runs it on the closed state. */
  lemma AdvancePastEnd(w: World, outside: Floor)
    requires w.dialogue.active && w.dialogue.typedDone && w.dialogue.index + 1 >= |w.dialogue.queue|
    ensures var d := w.dialogue;
      var closed := w.(dialogue := d.(index := d.index + 1, active := false, typedDone := false, callback := NoCallback));
      Advance(w, outside) == RunEffect(closed, d.callback, outside)
    ensures !Advance(w, outside).dialogue.active
    ensures Advance(w, outside).dialogue.callback == NoCallback
  {
    var d := w.dialogue;
    var closed := w.(dialogue := d.(index := d.index + 1, active := false, typedDone := false, callback := NoCallback));
    EffectsLeaveDialogue(closed, d.callback, outside);
  }

  /** No callback touches the dialogue: a callback can never open another
      dialogue or run a second callback. */
  lemma EffectsLeaveDialogue(w: World, e: Effect, outside: Floor)
    ensures RunEffect(w, e, outside).dialogue == w.dialogue
  {
  }

  /** The callback runs exactly once: after the advance that ran it, a
      further advance does nothing. */
  lemma CallbackRunsOnce(w: World, outside: Floor)
    requires w.dialogue.active && w.dialogue.typedDone && w.dialogue.index + 1 >= |w.dialogue.queue|
    ensures Advance(Advance(w, outside), outside) == Advance(w, outside)
  {
    AdvancePastEnd(w, outside);
    AdvanceWhenClosed(Advance(w, outside), outside);
  }

  /** `hideDialogue` drops the callback without running it: nothing a later
      advance does can run it. */
  lemma HideDropsCallback(w: World, outside: Floor)
    ensures HideDialogue(w) == w.(dialogue := NoDialogue)
    ensures !HideDialogue(w).dialogue.active && HideDialogue(w).dialogue.callback == NoCallback
    ensures Advance(HideDialogue(w), outside) == HideDialogue(w)
  {
  }

  // -------------------------------------------------------------- typewriter

  /** The dialogue after `n` firings of the typewriter timer. */
  ghost function Ticks(d: Dialogue, n: nat): Dialogue
    decreases n
  {
    if n == 0 then d else Ticks(TypewriterTick(d), n - 1)
  }

  /** A reveal started on a message of length `L` is still running, with `k`
      characters shown, after each of the first `k < max(L, 1)` firings. */
  lemma {:induction false} TypingProgress(d: Dialogue, k: nat)
    requires d.active && !d.typedDone && d.typed == 0
    requires k < d.textLength || k == 0
    ensures Ticks(d, k) == d.(typed := k)
    decreases k
  {
    if k > 0 {
      TypingProgress(d, k - 1);
      TicksLast(d, k - 1);
    }
  }

  /** Peel the last firing off `Ticks`. */
  lemma {:induction false} TicksLast(d: Dialogue, n: nat)
    ensures Ticks(d, n + 1) == TypewriterTick(Ticks(d, n))
    decreases n
  {
    if n > 0 {
      TicksLast(TypewriterTick(d), n - 1);
    }
  }

  /** The reveal of a message of length `L` finishes on exactly the
      `max(L, 1)`-th firing, showing the whole message; later firings
      change nothing. */
  lemma TypingFinishes(d: Dialogue, extra: nat)
    requires d.active && !d.typedDone && d.typed == 0
    ensures var n := if d.textLength == 0 then 1 else d.textLength;
      && !Ticks(d, n - 1).typedDone
      && Ticks(d, n) == d.(typed := d.textLength, typedDone := true)
      && Ticks(d, n + extra) == Ticks(d, n)
  {
    var n := if d.textLength == 0 then 1 else d.textLength;
    TypingProgress(d, n - 1);
    TicksLast(d, n - 1);
    TicksStopWhenDone(Ticks(d, n), extra);
    TicksSplit(d, n, extra);
  }

  /** A finished reveal ignores the timer. */
  lemma {:induction false} TicksStopWhenDone(d: Dialogue, n: nat)
    requires !TypewriterRunning(d)
    ensures Ticks(d, n) == d
    decreases n
  {
    if n > 0 {
      TicksStopWhenDone(d, n - 1);
      TicksLast(d, n - 1);
    }
  }

  lemma {:induction false} TicksSplit(d: Dialogue, m: nat, n: nat)
    ensures Ticks(d, m + n) == Ticks(Ticks(d, m), n)
    decreases m
  {
    if m > 0 {
      TicksSplit(TypewriterTick(d), m - 1, n);
    }
  }

  // -------------------------------------------------------------- movement

  /** `tryMove` during a slide or a dialogue changes nothing, not even the
      facing. */
  lemma MoveWhileBusy(w: World, d: Dir, outside: Floor)
    requires w.moving || w.dialogue.active
    ensures TryMove(w, d, outside) == w
  {
  }

  /** The tile ahead is neither stairs the current floor handles nor open:
      the player only turns to face it. */
  lemma MoveIntoBlocked(w: World, d: Dir, outside: Floor)
    requires !w.moving && !w.dialogue.active
    requires var t := Neighbour(w.player.row, w.player.col, d);
      && (Tile(FloorOf(w.floor, outside), t.row, t.col) == STAIRS ==>
            StairTransition(w.(player := w.player.(facing := d)), t.row, t.col, outside).None?)
      && IsTileBlocked(FloorOf(w.floor, outside), t.row, t.col)
    ensures TryMove(w, d, outside) == w.(player := w.player.(facing := d))
  {
  }

  /** A move onto an open tile turns the player and starts a slide from the
      current tile to that one; the player's tile itself does not change
      yet. */
  lemma MoveStartsSlide(w: World, d: Dir, outside: Floor)
    requires !w.moving && !w.dialogue.active
    requires var t := Neighbour(w.player.row, w.player.col, d);
      && (Tile(FloorOf(w.floor, outside), t.row, t.col) == STAIRS ==>
            StairTransition(w.(player := w.player.(facing := d)), t.row, t.col, outside).None?)
      && !IsTileBlocked(FloorOf(w.floor, outside), t.row, t.col)
    ensures var t := Neighbour(w.player.row, w.player.col, d);
      var r := TryMove(w, d, outside);
      && r == w.(player := w.player.(facing := d), moving := true, moveProgress := 0,
                 moveFrom := Some(Pos(w.player.row, w.player.col)), moveTo := Some(t))
      && InBounds(t.row, t.col) && !Solid(Tile(FloorOf(w.floor, outside), t.row, t.col))
  {
  }

  /** Stairs the current floor handles take over the move entirely. */
  lemma MoveOntoStairs(w: World, d: Dir, outside: Floor)
    requires !w.moving && !w.dialogue.active
    requires var t := Neighbour(w.player.row, w.player.col, d);
      && Tile(FloorOf(w.floor, outside), t.row, t.col) == STAIRS
      && StairTransition(w.(player := w.player.(facing := d)), t.row, t.col, outside).Some?
    ensures var t := Neighbour(w.player.row, w.player.col, d);
      TryMove(w, d, outside) == StairTransition(w.(player := w.player.(facing := d)), t.row, t.col, outside).value
  {
  }

  /** The state after `n` calls of `updateMovement`. */
  ghost function Frames(w: World, n: nat): World
    requires w.moving ==> w.moveTo.Some?
    decreases n
  {
    if n == 0 then w else Frames(UpdateMovement(w), n - 1)
  }

  /** During the first seven frames of a slide only the progress moves, by
      MOVE_SPEED pixels a frame. */
  lemma {:induction false} SlideProgress(w: World, k: nat)
    requires w.moving && w.moveTo.Some? && w.moveProgress == 0
    requires k * MOVE_SPEED < TILE_SIZE
    ensures Frames(w, k) == w.(moveProgress := k * MOVE_SPEED)
    decreases k
  {
    if k > 0 {
      SlideProgress(w, k - 1);
      FramesLast(w, k - 1);
    }
  }

  lemma {:induction false} FramesLast(w: World, n: nat)
    requires w.moving ==> w.moveTo.Some?
    ensures Frames(w, n).moving ==> Frames(w, n).moveTo.Some?
    ensures Frames(w, n + 1) == UpdateMovement(Frames(w, n))
    decreases n
  {
    if n > 0 {
      FramesLast(UpdateMovement(w), n - 1);
    }
  }

  /** A slide commits on exactly the eighth frame (TILE_SIZE 24 over
      MOVE_SPEED 3): the player's tile becomes the destination, the slide
      ends, the progress resets and both endpoints are cleared. */
  lemma SlideTakesEightFrames(w: World)
    requires w.moving && w.moveTo.Some? && w.moveProgress == 0
    ensures Frames(w, 7).moving && Frames(w, 7).player == w.player
    ensures Frames(w, 8) == w.(player := w.player.(row := w.moveTo.value.row, col := w.moveTo.value.col),
                               moving := false, moveProgress := 0, moveFrom := None, moveTo := None)
  {
    SlideProgress(w, 7);
    FramesLast(w, 7);
  }

  // ----------------------------------------------------------------- stairs

  /** Without the basket the laundry pile blocks the main stairs: the floor
      stays the same and only the "blocked" script plays. */
  lemma LaundryBlocks(w: World, row: int, col: int, outside: Floor)
    requires w.floor == Main && InSpan(MainToUpstairs, row, col)
    requires !w.flags.laundryCleared && LaundryBasket !in w.inventory
    ensures Opens(w, StairTransition(w, row, col, outside).value, Script.LaundryPileBlocked, NoCallback)
  {
    Script.ScriptLengths(Script.LaundryPileBlocked);
  }

  /** With the basket, the pile is cleared at once (basket handed in, flag
      set) and the climb waits for the end of the script. */
  lemma LaundryClears(w: World, row: int, col: int, outside: Floor)
    requires w.floor == Main && InSpan(MainToUpstairs, row, col)
    requires !w.flags.laundryCleared && LaundryBasket in w.inventory
    ensures Opens(ClearLaundry(w), StairTransition(w, row, col, outside).value, Script.LaundryPileClear, FloorTo(Upstairs))
  {
    Script.ScriptLengths(Script.LaundryPileClear);
  }

  /** Handing in the basket removes it, sets `laundry_cleared` and nothing
      else. */
  lemma ClearLaundryRemovesBasket(w: World)
    requires LaundryBasket in w.inventory
    ensures var r := ClearLaundry(w);
      && multiset(r.inventory) == multiset(w.inventory) - multiset{LaundryBasket}
      && r.flags == w.flags.(laundryCleared := true)
      && r == w.(inventory := r.inventory, flags := r.flags)
  {
  }

  /** Once cleared, the main stairs climb to the upstairs start tile. */
  lemma ClearedStairsClimb(w: World, row: int, col: int, outside: Floor)
    requires w.floor == Main && InSpan(MainToUpstairs, row, col) && w.flags.laundryCleared
    ensures var r := StairTransition(w, row, col, outside).value;
      r == w.(floor := Upstairs, player := Player(UpstairsStart.row, UpstairsStart.col, Down))
  {
  }

  /** The basement stairs land on the main floor at (7, 17) facing left. */
  lemma BasementStairsReturn(w: World, row: int, col: int, outside: Floor)
    requires w.floor == Basement && InSpan(BasementToMain, row, col)
    ensures StairTransition(w, row, col, outside).value == w.(floor := Main, player := Player(7, 17, Left))
  {
  }

  /** The upstairs stairs land on the main floor at (8, 10) facing down. */
  lemma UpstairsStairsReturn(w: World, row: int, col: int, outside: Floor)
    requires w.floor == Upstairs && InSpan(UpstairsToMain, row, col)
    ensures StairTransition(w, row, col, outside).value == w.(floor := Main, player := Player(8, 10, Down))
  {
  }

  /** Every arrival on an indoor floor — by `changeFloor` or by either
      return staircase — puts the player on free floor. */
  lemma ArrivalsAreFree(w: World, target: FloorId, outside: Floor)
    requires target != Outside
    ensures var r := ChangeFloor(w, target, outside);
      && r.floor == target && r.player.facing == Down
      && FreeFloorTile(FloorOf(target, outside), Pos(r.player.row, r.player.col))
      && !IsTileBlocked(FloorOf(target, outside), r.player.row, r.player.col)
    ensures FreeFloorTile(MainFloor, Pos(7, 17)) && !IsTileBlocked(MainFloor, 7, 17)
    ensures FreeFloorTile(MainFloor, Pos(8, 10)) && !IsTileBlocked(MainFloor, 8, 10)
  {
    ArrivalTilesFree();
  }

  // ------------------------------------------------------------------- cats

  /** The first case of each cat chain: a fed cat changes nothing but opens
      its "done" script ... */
  lemma CatAlreadyFed(w: World, c: CatName)
    requires Fed(w.flags, c) && c != Beatrice
    ensures Opens(w, FeedCat(w, c), DoneKey(c), NoCallback)
  {
    Script.ScriptLengths(DoneKey(c));
  }

  /** ... except Beatrice, who has no such script: the ending shows again. */
  lemma BeatriceAlreadyFed(w: World)
    requires w.flags.beatriceFed
    ensures FeedCat(w, Beatrice) == w.(endingShown := true)
  {
  }

  /** Second case: the wrong treat without the right one is refused, with
      no change. */
  lemma CatRefuses(w: World, c: CatName)
    requires !Fed(w.flags, c) && Refused(c) in w.inventory && Wanted(c) !in w.inventory
    ensures Opens(w, FeedCat(w, c), RefusedKey(c), NoCallback)
  {
    Script.ScriptLengths(RefusedKey(c));
  }

  /** Third case: the right treat is eaten at once (removed, cat marked
      fed), and the cat's reward waits for the end of its script. */
  lemma CatEats(w: World, c: CatName)
    requires !Fed(w.flags, c) && Wanted(c) in w.inventory
    ensures Opens(w.(inventory := RemoveItem(w.inventory, Wanted(c)), flags := MarkFed(w.flags, c)),
                  FeedCat(w, c), AfterKey(c), Reward(c))
  {
    Script.ScriptLengths(AfterKey(c));
  }

  /** Last case: neither treat, so the "before" script plays with no
      change. */
  lemma CatWaits(w: World, c: CatName)
    requires !Fed(w.flags, c) && Refused(c) !in w.inventory && Wanted(c) !in w.inventory
    ensures Opens(w, FeedCat(w, c), BeforeKey(c), NoCallback)
  {
    Script.ScriptLengths(BeforeKey(c));
  }

  /** Feeding sets exactly the cat's flag (and, for Beatrice, completes the
      game); a fed cat stays fed. */
  lemma MarkFedSetsOnlyCat(f: Flags, c: CatName)
    ensures Fed(MarkFed(f, c), c)
    ensures MarkFed(f, c).gameComplete == (f.gameComplete || c == Beatrice)
    ensures forall c' :: c' != c ==> Fed(MarkFed(f, c), c') == Fed(f, c')
    ensures MarkFed(f, c).(aliceFed := f.aliceFed, oliveFed := f.oliveFed, beatriceFed := f.beatriceFed,
                           gameComplete := f.gameComplete) == f
  {
  }

  /** Olive's reward, run when her script ends: the basket is added and
      `has_laundry_basket` set. */
  lemma OliveGivesBasket(w: World, outside: Floor)
    ensures RunEffect(w, Reward(Olive), outside)
      == w.(inventory := w.inventory + [LaundryBasket], flags := w.flags.(hasLaundryBasket := true))
  {
  }

  // ------------------------------------------------------ sofa and cupboards

  /** The sofa gives the key once, only after Alice is fed: both flags are
      set at once and the key is added when the script ends. */
  lemma SofaGivesKey(w: World)
    requires w.flags.aliceFed && !w.flags.sofaSearched && !w.flags.hasBasementKey
    ensures Opens(w.(flags := w.flags.(sofaSearched := true, hasBasementKey := true)),
                  SearchSofa(w), Script.SofaBlanket, GrantItem(BasementKey))
  {
    Script.ScriptLengths(Script.SofaBlanket);
  }

  /** Any other search of the sofa finds nothing and changes nothing. */
  lemma SofaEmpty(w: World)
    requires !w.flags.aliceFed || w.flags.sofaSearched || w.flags.hasBasementKey
    ensures Opens(w, SearchSofa(w), Script.SofaBlanketEmpty, NoCallback)
  {
    Script.ScriptLengths(Script.SofaBlanketEmpty);
  }

  /** After one search the sofa is empty for good. */
  lemma SofaOnce(w: World)
    requires w.flags.aliceFed && !w.flags.sofaSearched && !w.flags.hasBasementKey
    ensures var r := SearchSofa(w);
      Opens(r, SearchSofa(r), Script.SofaBlanketEmpty, NoCallback)
  {
    SofaGivesKey(w);
    SofaEmpty(SearchSofa(w));
  }

  /** The purrpops cupboard hands out purrpops only when none are held and
      some cat still needs them; otherwise it is empty and nothing changes. */
  lemma PurrpopsCupboardGives(w: World)
    ensures var give := !(w.flags.aliceFed && w.flags.oliveFed) && Purrpops !in w.inventory;
      && (give ==> Opens(w, SearchPurrpopsCupboard(w), Script.CupboardPurrpops, GrantItem(Purrpops)))
      && (!give ==> Opens(w, SearchPurrpopsCupboard(w), Script.CupboardEmpty, NoCallback))
  {
    Script.ScriptLengths(Script.CupboardPurrpops);
    Script.ScriptLengths(Script.CupboardEmpty);
  }

  /** The feast cupboard hands out the plate only when none is held and
      Beatrice is not fed. */
  lemma FeastCupboardGives(w: World)
    ensures var give := !w.flags.beatriceFed && FeastPlate !in w.inventory;
      && (give ==> Opens(w, SearchFeastCupboard(w), Script.CupboardFeast, GrantItem(FeastPlate)))
      && (!give ==> Opens(w, SearchFeastCupboard(w), Script.CupboardEmpty, NoCallback))
  {
    Script.ScriptLengths(Script.CupboardFeast);
    Script.ScriptLengths(Script.CupboardEmpty);
  }

  // ------------------------------------------------------------------ doors

  /** The locked basement door opens with the key: the key is used up and
      `basement_unlocked` set at once, the move down waits for the script. */
  lemma BasementDoorUnlocks(w: World, outside: Floor)
    requires !w.flags.basementUnlocked && BasementKey in w.inventory
    ensures Opens(w.(inventory := RemoveItem(w.inventory, BasementKey), flags := w.flags.(basementUnlocked := true)),
                  UseBasementDoor(w, outside), Script.BasementDoorUnlock, FloorTo(Basement))
  {
    Script.ScriptLengths(Script.BasementDoorUnlock);
  }

  /** Without the key the locked door only says so. */
  lemma BasementDoorLocked(w: World, outside: Floor)
    requires !w.flags.basementUnlocked && BasementKey !in w.inventory
    ensures Opens(w, UseBasementDoor(w, outside), Script.BasementDoorLocked, NoCallback)
  {
    Script.ScriptLengths(Script.BasementDoorLocked);
  }

  /** An unlocked basement door leads straight down. */
  lemma BasementDoorOpen(w: World, outside: Floor)
    requires w.flags.basementUnlocked
    ensures UseBasementDoor(w, outside) == w.(floor := Basement, player := Player(BasementStart.row, BasementStart.col, Down))
  {
  }

  /** The locked front door opens the numpad when its script ends; the
      unlocked door leads straight to the main floor. */
  lemma FrontDoorOpens(w: World, outside: Floor)
    ensures !w.flags.frontDoorUnlocked ==>
      Opens(w, UseFrontDoor(w, outside), Script.FrontDoorLocked, OpenNumpad)
    ensures w.flags.frontDoorUnlocked ==>
      UseFrontDoor(w, outside) == w.(floor := Main, player := Player(MainStart.row, MainStart.col, Down))
  {
    Script.ScriptLengths(Script.FrontDoorLocked);
  }

  /** `numpadSubmit` ignores codes shorter than four characters, and so
      does a closed numpad. */
  lemma ShortCodeIgnored(w: World, code: string, outside: Floor)
    requires |code| < 4 || !w.numpadOpen
    ensures NumpadSubmit(w, code, outside) == w
  {
  }

  /** Only "3134" unlocks the front door; it also closes the numpad and
      takes the player to the main floor's start tile. */
  lemma RightCodeUnlocks(w: World, outside: Floor)
    requires w.numpadOpen
    ensures NumpadSubmit(w, "3134", outside)
      == w.(numpadOpen := false, flags := w.flags.(frontDoorUnlocked := true),
            floor := Main, player := Player(MainStart.row, MainStart.col, Down))
  {
  }

  /** Any other code of four or more characters only closes the numpad;
      the door stays locked and can be tried again, without limit. */
  lemma WrongCodeRetries(w: World, code: string, outside: Floor)
    requires w.numpadOpen && |code| >= 4 && code != FRONT_DOOR_CODE
    ensures NumpadSubmit(w, code, outside) == w.(numpadOpen := false)
    ensures !w.flags.frontDoorUnlocked ==>
      var r := NumpadSubmit(w, code, outside);
      Opens(r, UseFrontDoor(r, outside), Script.FrontDoorLocked, OpenNumpad)
  {
    FrontDoorOpens(NumpadSubmit(w, code, outside), outside);
  }

  // ------------------------------------------------------------------- toys

  /** A toy is recorded the first time only; the script for a toy the table
      has opens, one it lacks is skipped. */
  lemma ToyFoundOnce(w: World, id: string)
    ensures id in w.flags.catToysFound ==>
      Opens(w, PickUpToy(w, id), Script.CatToyFound, NoCallback)
    ensures id !in w.flags.catToysFound ==>
      && PickUpToy(w, id).flags == w.flags.(catToysFound := w.flags.catToysFound + [id])
      && PickUpToy(w, id).inventory == w.inventory
      && PickUpToy(w, id).floor == w.floor
  {
    Script.ScriptLengths(Script.CatToyFound);
  }

  // --------------------------------------------------------------- collision

  /** DOOR, STAIRS and INTERACT tiles (and plain floor) inside the map with no
      object on them are open; the solid tiles, the tiles off the map and
      any object's tile are blocked. */
  lemma OpenTiles(f: Floor, row: int, col: int)
    ensures (InBounds(row, col) && Tile(f, row, col) in {FLOOR, DOOR, STAIRS, INTERACT}
             && InteractableAt(f, row, col).None?) ==> !IsTileBlocked(f, row, col)
    ensures !InBounds(row, col) ==> IsTileBlocked(f, row, col)
    ensures Solid(Tile(f, row, col)) ==> IsTileBlocked(f, row, col)
    ensures InteractableAt(f, row, col).Some? ==> IsTileBlocked(f, row, col)
  {
  }

  /** `getFacingTile` names the tile one step away in the facing direction,
      which differs from the player's tile in exactly one coordinate. */
  lemma FacingTileAdjacent(p: Player)
    ensures var t := FacingTile(p);
      || (t.row == p.row && (t.col == p.col - 1 || t.col == p.col + 1))
      || (t.col == p.col && (t.row == p.row - 1 || t.row == p.row + 1))
    ensures var t := FacingTile(p);
      && (p.facing == Up <==> t.row < p.row) && (p.facing == Down <==> t.row > p.row)
      && (p.facing == Left <==> t.col < p.col) && (p.facing == Right <==> t.col > p.col)
  {
  }

  /** On a floor whose objects are on distinct tiles, the first object
      `getInteractableAt` finds on a tile is the only one there. */
  lemma InteractableAtIsOnlyOne(f: Floor, row: int, col: int, i: int)
    requires DistinctInBounds(f.interactables)
    requires 0 <= i < |f.interactables| && IsAt(f.interactables[i], row, col)
    ensures InteractableAt(f, row, col) == Some(f.interactables[i])
  {
    var objs := f.interactables;
    var k := FindAt(objs, row, col);
    if 0 <= k < i {
      assert false;
    }
  }

  // -------------------------------------------------------------- inventory

  /** Removing an item just added to an inventory without it gives the
      inventory back. */
  lemma AddThenRemove(inv: seq<Item>, it: Item)
    requires it !in inv
    ensures RemoveItem(inv + [it], it) == inv
  {
    var s := inv + [it];
    var i := IndexOf(s, it);
    assert s[..|inv|] == inv;
    assert i == |inv|;
    assert s[..i] == inv;
  }

  /** `removeItem` splices out the first occurrence and keeps the order of
      the rest. */
  lemma RemoveFirst(inv: seq<Item>, it: Item)
    requires it in inv
    ensures exists i :: 0 <= i < |inv| && inv[i] == it && it !in inv[..i]
                        && RemoveItem(inv, it) == inv[..i] + inv[i + 1..]
  {
    var i := IndexOf(inv, it);
    assert inv[i] == it && it !in inv[..i];
  }

  // ---------------------------------------------------------------- the hint

  /** The hint chain runs out exactly when the game is complete (with
      `game_complete` set together with `beatrice_fed`, as the game always
      does). */
  lemma HintEndsWithGame(w: World)
    requires w.flags.gameComplete == w.flags.beatriceFed
    ensures NextTaskHint(w).None? <==> w.flags.gameComplete
  {
  }

  /** The hint names the earliest unfinished step of the quest, and where a
      step needs an item, which of its two hints appears depends on whether
      that item is held. */
  lemma HintFollowsQuest(w: World)
    requires !w.flags.gameComplete
    ensures !w.flags.frontDoorUnlocked ==>
      NextTaskHint(w) == Some("Check the house plaque outside for the front door code.")
    ensures w.flags.frontDoorUnlocked && !w.flags.aliceFed ==>
      NextTaskHint(w) == Some(if Purrpops in w.inventory then "Find Alice and give her the Purrpops."
                              else "Search the kitchen cupboards for Purrpops for Alice.")
    ensures w.flags.frontDoorUnlocked && w.flags.aliceFed
            && !w.flags.hasBasementKey && !w.flags.basementUnlocked ==>
      NextTaskHint(w) == Some("Alice gave a clue\U{00E2}\U{20AC}\U{201D}check under the sofa blanket.")
    ensures w.flags.frontDoorUnlocked && w.flags.aliceFed
            && w.flags.hasBasementKey && !w.flags.basementUnlocked ==>
      NextTaskHint(w) == Some(if BasementKey in w.inventory then "Use the Basement Key on the basement door."
                              else "Look for the Basement Key near the sofa.")
    ensures w.flags.frontDoorUnlocked && w.flags.aliceFed && w.flags.basementUnlocked
            && !w.flags.oliveFed ==>
      NextTaskHint(w) == Some(if Purrpops in w.inventory then "Find Olive in the basement and feed her."
                              else "Grab more Purrpops from the kitchen, then visit Olive downstairs.")
    ensures w.flags.frontDoorUnlocked && w.flags.aliceFed && w.flags.basementUnlocked
            && w.flags.oliveFed && !w.flags.laundryCleared ==>
      NextTaskHint(w) == Some(if LaundryBasket in w.inventory
                              then "Take the Laundry Basket to the blocked stairs on the main floor."
                              else "Talk to Olive in the basement to get help with the blocked stairs.")
    ensures w.flags.frontDoorUnlocked && w.flags.aliceFed && w.flags.basementUnlocked
            && w.flags.oliveFed && w.flags.laundryCleared && !w.flags.beatriceFed ==>
      NextTaskHint(w) == Some(if FeastPlate in w.inventory then "Find Beatrice upstairs and give her the feast plate."
                              else "Find a Shrimp & Salmon Feast plate in the kitchen cupboards.")
  {
  }

  // ---------------------------------------------------------------- save/load

  /** Loading what `doSaveGame` wrote restores the floor, the tile and
      facing, the inventory and every flag, and reports success; the dialogue,
      slide and overlays are not part of the record and are left as they
      are. */
  lemma SaveLoadRoundTrip(w: World, v: World)
    ensures LoadGame(w, Present(DoSaveGame(v)))
      == Outcome(true, w.(floor := v.floor, player := v.player, inventory := v.inventory, flags := v.flags))
  {
  }

  /** Nothing stored, or nothing readable: `loadGame` fails and changes
      nothing. */
  lemma LoadNothing(w: World)
    ensures LoadGame(w, Absent) == Outcome(false, w)
    ensures LoadGame(w, Unparsable) == Outcome(false, w)
  {
  }

  /** A record without a player fails, but only after the floor has been
      taken from it. */
  lemma LoadWithoutPlayer(w: World, rec: SaveRecord)
    requires rec.player.None?
    ensures LoadGame(w, Present(rec)) == Outcome(false, w.(floor := Or(rec.currentFloor, Outside)))
  {
  }

  /** `Object.assign` keeps every flag the record lacks and takes every flag
      it has: here the cats' flags and the end of the game, and a record
      with no flags at all changes none. */
  lemma MergeKeepsMissing(f: Flags, s: SavedFlags)
    ensures MergeFlags(f, NoStoredFlags) == f
    ensures s.aliceFed.Some? ==> MergeFlags(f, s).aliceFed == s.aliceFed.value
    ensures s.aliceFed.None? ==> MergeFlags(f, s).aliceFed == f.aliceFed
    ensures s.oliveFed.Some? ==> MergeFlags(f, s).oliveFed == s.oliveFed.value
    ensures s.oliveFed.None? ==> MergeFlags(f, s).oliveFed == f.oliveFed
    ensures s.beatriceFed.Some? ==> MergeFlags(f, s).beatriceFed == s.beatriceFed.value
    ensures s.beatriceFed.None? ==> MergeFlags(f, s).beatriceFed == f.beatriceFed
    ensures s.gameComplete.Some? ==> MergeFlags(f, s).gameComplete == s.gameComplete.value
    ensures s.gameComplete.None? ==> MergeFlags(f, s).gameComplete == f.gameComplete
  {
  }

  /** The same for the flags of the basement and the laundry. */
  lemma MergeKeepsMissingBasement(f: Flags, s: SavedFlags)
    ensures s.hasBasementKey.Some? ==> MergeFlags(f, s).hasBasementKey == s.hasBasementKey.value
    ensures s.hasBasementKey.None? ==> MergeFlags(f, s).hasBasementKey == f.hasBasementKey
    ensures s.basementUnlocked.Some? ==> MergeFlags(f, s).basementUnlocked == s.basementUnlocked.value
    ensures s.basementUnlocked.None? ==> MergeFlags(f, s).basementUnlocked == f.basementUnlocked
    ensures s.hasLaundryBasket.Some? ==> MergeFlags(f, s).hasLaundryBasket == s.hasLaundryBasket.value
    ensures s.hasLaundryBasket.None? ==> MergeFlags(f, s).hasLaundryBasket == f.hasLaundryBasket
    ensures s.laundryCleared.Some? ==> MergeFlags(f, s).laundryCleared == s.laundryCleared.value
    ensures s.laundryCleared.None? ==> MergeFlags(f, s).laundryCleared == f.laundryCleared
  {
  }

  /** The same for the sofa, the front door and the found toys. */
  lemma MergeKeepsMissingOther(f: Flags, s: SavedFlags)
    ensures s.sofaSearched.Some? ==> MergeFlags(f, s).sofaSearched == s.sofaSearched.value
    ensures s.sofaSearched.None? ==> MergeFlags(f, s).sofaSearched == f.sofaSearched
    ensures s.frontDoorUnlocked.Some? ==> MergeFlags(f, s).frontDoorUnlocked == s.frontDoorUnlocked.value
    ensures s.frontDoorUnlocked.None? ==> MergeFlags(f, s).frontDoorUnlocked == f.frontDoorUnlocked
    ensures s.catToysFound.Some? ==> MergeFlags(f, s).catToysFound == s.catToysFound.value
    ensures s.catToysFound.None? ==> MergeFlags(f, s).catToysFound == f.catToysFound
  {
  }

  // ---------------------------------------------------------------- new game

  /** A new game empties the inventory, resets every flag, puts the player
      outside facing down and opens the intro; only the ending overlay is
      left alone. */
  lemma NewGameResets(w: World, outsideStart: Pos)
    ensures var r := ResetWorld(w, outsideStart);
      && r.floor == Outside && r.player == Player(outsideStart.row, outsideStart.col, Down)
      && r.inventory == [] && r.flags == DefaultFlags && !r.moving && r.moveTo.None?
      && !r.numpadOpen && r.endingShown == w.endingShown
      && Opens(r, StartNewGame(w, outsideStart), Script.Intro, NoCallback)
  {
    Script.ScriptLengths(Script.Intro);
  }

  /** The ending screen's restart takes the ending overlay down and then
      starts the same new game as the title screen's button, whatever the
      overlay showed before. */
  lemma RestartResets(w: World, outsideStart: Pos)
    ensures var r := RestartGame(w, outsideStart);
      && !r.endingShown
      && r == StartNewGame(w, outsideStart).(endingShown := false)
      && r.floor == Outside && r.inventory == [] && r.flags == DefaultFlags
  {
  }
}
