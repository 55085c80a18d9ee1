/** The quest bookkeeping every reachable state keeps, and the fact that the
    game's flags only ever become true until a new game starts. */
module Invariants {
  import opened Maps
  import opened Rules
  import opened Behaviour
  import Script

  ghost predicate NoDup<T>(s: seq<T>) {
    forall i, j :: 0 <= i < j < |s| ==> s[i] != s[j]
  }

  /** What the callback of the open dialogue is about to do is still sound:
      it never grants an item already held, and Olive's reward comes once. */
  ghost predicate PendingOk(w: World) {
    match w.dialogue.callback
    case GrantItem(it) =>
      && it !in w.inventory
      && it != LaundryBasket
      && (it == BasementKey ==> w.flags.hasBasementKey)
    case OliveReward => w.flags.oliveFed && !w.flags.hasLaundryBasket
    case _ => true
  }

  /** The invariant of the quest state, apart from the open dialogue:
      - the inventory and the found toys have no duplicates;
      - the basket is only ever held after Olive gave it, and the key only
        after the sofa search;
      - the game is complete exactly when Beatrice is fed;
      - a slide always has a destination. */
  ghost predicate Sound(w: World) {
    && NoDup(w.inventory)
    && NoDup(w.flags.catToysFound)
    && (LaundryBasket in w.inventory ==> w.flags.hasLaundryBasket)
    && (w.flags.hasLaundryBasket ==> w.flags.oliveFed)
    && (BasementKey in w.inventory ==> w.flags.hasBasementKey)
    && w.flags.gameComplete == w.flags.beatriceFed
    && (w.moving ==> w.moveTo.Some?)
  }

  /** The whole invariant: a callback is only pending while its dialogue is
      open, and it is sound. */
  ghost predicate Consistent(w: World) {
    && Sound(w)
    && (!w.dialogue.active ==> w.dialogue.callback == NoCallback)
    && PendingOk(w)
  }

  /** Flags only go from false to true, and found toys are only appended. */
  ghost predicate FlagsGrow(f: Flags, g: Flags) {
    && (f.aliceFed ==> g.aliceFed)
    && (f.oliveFed ==> g.oliveFed)
    && (f.beatriceFed ==> g.beatriceFed)
    && (f.hasBasementKey ==> g.hasBasementKey)
    && (f.basementUnlocked ==> g.basementUnlocked)
    && (f.hasLaundryBasket ==> g.hasLaundryBasket)
    && (f.laundryCleared ==> g.laundryCleared)
    && (f.sofaSearched ==> g.sofaSearched)
    && (f.gameComplete ==> g.gameComplete)
    && (f.frontDoorUnlocked ==> g.frontDoorUnlocked)
    && |f.catToysFound| <= |g.catToysFound|
    && g.catToysFound[..|f.catToysFound|] == f.catToysFound
  }

  // ------------------------------------------------------ sequence helpers

  /** Splicing out the first occurrence keeps a duplicate-free inventory
      duplicate-free, removes the item entirely and adds nothing. */
  lemma RemoveItemKeepsNoDup(s: seq<Item>, y: Item)
    requires NoDup(s)
    ensures NoDup(RemoveItem(s, y))
    ensures y !in RemoveItem(s, y)
    ensures forall x :: x in RemoveItem(s, y) ==> x in s
  {
    var r := RemoveItem(s, y);
    if y in s {
      var i := IndexOf(s, y);
      assert r == s[..i] + s[i + 1..];
      assert forall k :: 0 <= k < |r| ==> r[k] == s[if k < i then k else k + 1];
      forall a, b | 0 <= a < b < |r| ensures r[a] != r[b] {
        assert r[a] == s[if a < i then a else a + 1];
        assert r[b] == s[if b < i then b else b + 1];
      }
      forall k | 0 <= k < |r| ensures r[k] != y {
        assert r[k] == s[if k < i then k else k + 1];
      }
    }
  }

  /** Appending an absent element keeps a sequence duplicate-free. */
  lemma AppendKeepsNoDup<T>(s: seq<T>, x: T)
    requires NoDup(s) && x !in s
    ensures NoDup(s + [x])
  {
    var t := s + [x];
    forall a, b | 0 <= a < b < |t| ensures t[a] != t[b] {
      if b == |s| {
        assert t[a] == s[a];
      } else {
        assert t[a] == s[a] && t[b] == s[b];
      }
    }
  }

  // ------------------------------------------------------------ dialogue

  /** Opening a script with a sound pending callback keeps the invariant. */
  lemma OpensKeeps(w: World, r: World, key: Script.Key, cb: Effect)
    requires Sound(w) && !w.dialogue.active && w.dialogue.callback == NoCallback
    requires PendingOk(w.(dialogue := w.dialogue.(callback := cb)))
    requires Opens(w, r, key, cb)
    ensures Consistent(r)
  {
  }

  /** Soundness and the pending callback's bookkeeping do not depend on the
      rest of the dialogue. */
  lemma OtherDialogueKeeps(w: World, d: Dialogue)
    requires Sound(w) && PendingOk(w.(dialogue := w.dialogue.(callback := d.callback)))
    ensures Sound(w.(dialogue := d)) && PendingOk(w.(dialogue := d))
  {
  }

  /** Running a pending callback that is sound keeps the invariant. */
  lemma RunEffectKeeps(w: World, e: Effect, outside: Floor)
    requires Consistent(w) && !w.dialogue.active
    requires PendingOk(w.(dialogue := w.dialogue.(callback := e)))
    ensures Consistent(RunEffect(w, e, outside))
  {
    match e
    case GrantItem(it) => AppendKeepsNoDup(w.inventory, it);
    case OliveReward => AppendKeepsNoDup(w.inventory, LaundryBasket);
    case _ =>
  }

  lemma AdvanceKeeps(w: World, outside: Floor)
    requires Consistent(w)
    ensures Consistent(Advance(w, outside))
  {
    var d := w.dialogue;
    if d.active && d.typedDone && d.index + 1 >= |d.queue| {
      AdvanceEndKeeps(w, outside);
    } else {
      AdvanceOpenKeeps(w, outside);
    }
  }

  lemma AdvanceOpenKeeps(w: World, outside: Floor)
    requires Consistent(w)
    requires !(w.dialogue.active && w.dialogue.typedDone && w.dialogue.index + 1 >= |w.dialogue.queue|)
    ensures Consistent(Advance(w, outside))
  {
    var d := w.dialogue;
    if !d.active {
      AdvanceWhenClosed(w, outside);
    } else if !d.typedDone {
      AdvanceWhileTyping(w, outside);
    } else {
      AdvanceToNext(w, outside);
    }
  }

  lemma AdvanceEndKeeps(w: World, outside: Floor)
    requires Consistent(w)
    requires w.dialogue.active && w.dialogue.typedDone && w.dialogue.index + 1 >= |w.dialogue.queue|
    ensures Consistent(Advance(w, outside))
  {
    match w.dialogue.callback
    case GrantItem(it) => AdvanceEndGrantKeeps(w, outside);
    case OliveReward => AdvanceEndGrantKeeps(w, outside);
    case _ => AdvanceEndOtherKeeps(w, outside);
  }

  lemma AdvanceEndGrantKeeps(w: World, outside: Floor)
    requires Consistent(w)
    requires w.dialogue.active && w.dialogue.typedDone && w.dialogue.index + 1 >= |w.dialogue.queue|
    requires w.dialogue.callback.GrantItem? || w.dialogue.callback.OliveReward?
    ensures Consistent(Advance(w, outside))
  {
    var d := w.dialogue;
    AdvancePastEnd(w, outside);
    var closed := w.(dialogue := d.(index := d.index + 1, active := false, typedDone := false, callback := NoCallback));
    OtherDialogueKeeps(w, closed.dialogue);
    OtherDialogueKeeps(w, closed.dialogue.(callback := d.callback));
    RunEffectKeeps(closed, d.callback, outside);
  }

  lemma AdvanceEndOtherKeeps(w: World, outside: Floor)
    requires Consistent(w)
    requires w.dialogue.active && w.dialogue.typedDone && w.dialogue.index + 1 >= |w.dialogue.queue|
    requires !w.dialogue.callback.GrantItem? && !w.dialogue.callback.OliveReward?
    ensures Consistent(Advance(w, outside))
  {
    var d := w.dialogue;
    AdvancePastEnd(w, outside);
    var closed := w.(dialogue := d.(index := d.index + 1, active := false, typedDone := false, callback := NoCallback));
    OtherDialogueKeeps(w, closed.dialogue);
  }

  lemma TypewriterKeeps(w: World)
    requires Consistent(w)
    ensures Consistent(w.(dialogue := TypewriterTick(w.dialogue)))
  {
  }

  // ------------------------------------------------------- state changes

  lemma ClearLaundryKeeps(w: World)
    requires Consistent(w) && LaundryBasket in w.inventory
    ensures Sound(ClearLaundry(w))
    ensures LaundryBasket !in ClearLaundry(w).inventory
  {
    RemoveItemKeepsNoDup(w.inventory, LaundryBasket);
  }

  lemma StairKeeps(w: World, row: int, col: int, outside: Floor)
    requires Consistent(w) && !w.dialogue.active
    requires StairTransition(w, row, col, outside).Some?
    ensures Consistent(StairTransition(w, row, col, outside).value)
  {
    if w.floor == Main && !w.flags.laundryCleared {
      LaundryPileKeeps(w, row, col, outside);
    }
  }

  lemma LaundryPileKeeps(w: World, row: int, col: int, outside: Floor)
    requires Consistent(w) && !w.dialogue.active
    requires w.floor == Main && !w.flags.laundryCleared && InSpan(MainToUpstairs, row, col)
    ensures Consistent(StairTransition(w, row, col, outside).value)
  {
    var r := StairTransition(w, row, col, outside).value;
    if LaundryBasket in w.inventory {
      ClearLaundryKeeps(w);
      LaundryClears(w, row, col, outside);
      OpensKeeps(ClearLaundry(w), r, Script.LaundryPileClear, FloorTo(Upstairs));
    } else {
      LaundryBlocks(w, row, col, outside);
      OpensKeeps(w, r, Script.LaundryPileBlocked, NoCallback);
    }
  }

  lemma TryMoveKeeps(w: World, d: Dir, outside: Floor)
    requires Consistent(w)
    ensures Consistent(TryMove(w, d, outside))
  {
    if w.moving || w.dialogue.active {
      MoveWhileBusy(w, d, outside);
    } else {
      var turned := w.(player := w.player.(facing := d));
      var t := Neighbour(w.player.row, w.player.col, d);
      var f := FloorOf(w.floor, outside);
      if Tile(f, t.row, t.col) == STAIRS && StairTransition(turned, t.row, t.col, outside).Some? {
        MoveOntoStairs(w, d, outside);
        StairKeeps(turned, t.row, t.col, outside);
      } else if IsTileBlocked(f, t.row, t.col) {
        MoveIntoBlocked(w, d, outside);
      } else {
        MoveStartsSlide(w, d, outside);
      }
    }
  }

  lemma FeedCatKeeps(w: World, c: CatName)
    requires Consistent(w) && !w.dialogue.active
    ensures Consistent(FeedCat(w, c))
  {
    if !Fed(w.flags, c) && Wanted(c) in w.inventory {
      CatEatsKeeps(w, c);
    } else {
      CatDeclinesKeeps(w, c);
    }
  }

  lemma CatEatsKeeps(w: World, c: CatName)
    requires Consistent(w) && !w.dialogue.active
    requires !Fed(w.flags, c) && Wanted(c) in w.inventory
    ensures Consistent(FeedCat(w, c))
  {
    RemoveItemKeepsNoDup(w.inventory, Wanted(c));
    CatEats(w, c);
    var fed := w.(inventory := RemoveItem(w.inventory, Wanted(c)), flags := MarkFed(w.flags, c));
    OpensKeeps(fed, FeedCat(w, c), AfterKey(c), Reward(c));
  }

  lemma CatDeclinesKeeps(w: World, c: CatName)
    requires Consistent(w) && !w.dialogue.active
    requires Fed(w.flags, c) || Wanted(c) !in w.inventory
    ensures Consistent(FeedCat(w, c))
  {
    var r := FeedCat(w, c);
    if Fed(w.flags, c) {
      if c == Beatrice {
        BeatriceAlreadyFed(w);
      } else {
        CatAlreadyFed(w, c);
        OpensKeeps(w, r, DoneKey(c), NoCallback);
      }
    } else if Refused(c) in w.inventory {
      CatRefuses(w, c);
      OpensKeeps(w, r, RefusedKey(c), NoCallback);
    } else {
      CatWaits(w, c);
      OpensKeeps(w, r, BeforeKey(c), NoCallback);
    }
  }

  lemma CupboardsKeep(w: World)
    requires Consistent(w) && !w.dialogue.active
    ensures Consistent(SearchPurrpopsCupboard(w))
    ensures Consistent(SearchFeastCupboard(w))
  {
    PurrpopsCupboardGives(w);
    if !(w.flags.aliceFed && w.flags.oliveFed) && Purrpops !in w.inventory {
      OpensKeeps(w, SearchPurrpopsCupboard(w), Script.CupboardPurrpops, GrantItem(Purrpops));
    } else {
      OpensKeeps(w, SearchPurrpopsCupboard(w), Script.CupboardEmpty, NoCallback);
    }
    FeastCupboardGives(w);
    if !w.flags.beatriceFed && FeastPlate !in w.inventory {
      OpensKeeps(w, SearchFeastCupboard(w), Script.CupboardFeast, GrantItem(FeastPlate));
    } else {
      OpensKeeps(w, SearchFeastCupboard(w), Script.CupboardEmpty, NoCallback);
    }
  }

  lemma SofaKeeps(w: World)
    requires Consistent(w) && !w.dialogue.active
    ensures Consistent(SearchSofa(w))
  {
    var fl := w.flags;
    if fl.aliceFed && !fl.sofaSearched && !fl.hasBasementKey {
      SofaGivesKey(w);
      OpensKeeps(w.(flags := fl.(sofaSearched := true, hasBasementKey := true)), SearchSofa(w),
                 Script.SofaBlanket, GrantItem(BasementKey));
    } else {
      SofaEmpty(w);
      OpensKeeps(w, SearchSofa(w), Script.SofaBlanketEmpty, NoCallback);
    }
  }

  lemma FrontDoorKeeps(w: World, outside: Floor)
    requires Consistent(w) && !w.dialogue.active
    ensures Consistent(UseFrontDoor(w, outside))
  {
    FrontDoorOpens(w, outside);
    if !w.flags.frontDoorUnlocked {
      OpensKeeps(w, UseFrontDoor(w, outside), Script.FrontDoorLocked, OpenNumpad);
    }
  }

  lemma BasementDoorKeeps(w: World, outside: Floor)
    requires Consistent(w) && !w.dialogue.active
    ensures Consistent(UseBasementDoor(w, outside))
  {
    var fl := w.flags;
    if fl.basementUnlocked {
      BasementDoorOpen(w, outside);
    } else if BasementKey in w.inventory {
      RemoveItemKeepsNoDup(w.inventory, BasementKey);
      BasementDoorUnlocks(w, outside);
      OpensKeeps(w.(inventory := RemoveItem(w.inventory, BasementKey), flags := fl.(basementUnlocked := true)),
                 UseBasementDoor(w, outside), Script.BasementDoorUnlock, FloorTo(Basement));
    } else {
      BasementDoorLocked(w, outside);
      OpensKeeps(w, UseBasementDoor(w, outside), Script.BasementDoorLocked, NoCallback);
    }
  }

  lemma ToyKeeps(w: World, id: string)
    requires Consistent(w) && !w.dialogue.active
    ensures Consistent(PickUpToy(w, id))
  {
    var fl := w.flags;
    if id in fl.catToysFound {
      ToyFoundOnce(w, id);
      OpensKeeps(w, PickUpToy(w, id), Script.CatToyFound, NoCallback);
    } else {
      AppendKeepsNoDup(fl.catToysFound, id);
      var w1 := w.(flags := fl.(catToysFound := fl.catToysFound + [id]));
      assert Sound(w1);
      var key := ToyScript(id);
      if key.Some? {
        PlayOpens(w1, key.value, Cosmetic);
        OpensKeeps(w1, PickUpToy(w, id), key.value, Cosmetic);
      }
    }
  }

  lemma HandleKeeps(w: World, obj: Interactable, outside: Floor)
    requires Consistent(w) && !w.dialogue.active
    ensures Consistent(HandleInteraction(w, obj, outside))
  {
    match obj.kind
    case Flavor(key) =>
      PlayOpens(w, key, NoCallback);
      OpensKeeps(w, HandleInteraction(w, obj, outside), key, NoCallback);
    case FrontDoor => FrontDoorKeeps(w, outside);
    case PurrpopsCupboard => CupboardsKeep(w);
    case FeastCupboard => CupboardsKeep(w);
    case Cat(c) => FeedCatKeeps(w, c);
    case Sofa => SofaKeeps(w);
    case BasementDoor => BasementDoorKeeps(w, outside);
    case Toy(id) => ToyKeeps(w, id);
    case Unhandled =>
  }

  lemma PressInteractKeeps(w: World, outside: Floor)
    requires Consistent(w)
    ensures Consistent(PressInteract(w, outside))
  {
    if !w.numpadOpen {
      if w.dialogue.active {
        AdvanceKeeps(w, outside);
      } else if CheckLaundry(w).handled {
        ClearLaundryKeeps(w);
        PlayOpens(ClearLaundry(w), Script.LaundryPileClear, Cosmetic);
        OpensKeeps(ClearLaundry(w), PressInteract(w, outside), Script.LaundryPileClear, Cosmetic);
      } else if !w.moving {
        var t := FacingTile(w.player);
        var obj := InteractableAt(FloorOf(w.floor, outside), t.row, t.col);
        if obj.Some? {
          HandleKeeps(w, obj.value, outside);
        }
      }
    }
  }

  lemma FrameKeeps(w: World, held: Option<Dir>, outside: Floor)
    requires Consistent(w)
    ensures Consistent(LoopFrame(w, held, outside))
  {
    var w1 := if !w.dialogue.active && !w.moving && held.Some? then TryMove(w, held.value, outside) else w;
    if !w.dialogue.active && !w.moving && held.Some? {
      TryMoveKeeps(w, held.value, outside);
    }
    UpdateMovementKeeps(w1);
  }

  lemma UpdateMovementKeeps(w: World)
    requires Consistent(w)
    ensures Consistent(UpdateMovement(w))
  {
  }

  // ------------------------------------------------------ flags only grow
  // How each routine changes the flags, in closed form, and from that the
  // fact that they only grow.

  lemma AdvanceFlags(w: World, outside: Floor)
    ensures Advance(w, outside).flags ==
      if w.dialogue.active && w.dialogue.typedDone && w.dialogue.index + 1 >= |w.dialogue.queue|
         && w.dialogue.callback == OliveReward
      then w.flags.(hasLaundryBasket := true) else w.flags
  {
    var d := w.dialogue;
    if !d.active {
      AdvanceWhenClosed(w, outside);
    } else if !d.typedDone {
      AdvanceWhileTyping(w, outside);
    } else if d.index + 1 < |d.queue| {
      AdvanceToNext(w, outside);
    } else {
      AdvancePastEnd(w, outside);
    }
  }

  lemma StairFlags(w: World, row: int, col: int, outside: Floor)
    requires StairTransition(w, row, col, outside).Some?
    ensures StairTransition(w, row, col, outside).value.flags ==
      if w.floor == Main && !w.flags.laundryCleared && LaundryBasket in w.inventory
      then w.flags.(laundryCleared := true) else w.flags
  {
    match w.floor
    case Main =>
      if w.flags.laundryCleared {
        ClearedStairsClimb(w, row, col, outside);
      } else if LaundryBasket in w.inventory {
        LaundryClears(w, row, col, outside);
      } else {
        LaundryBlocks(w, row, col, outside);
      }
    case Basement => BasementStairsReturn(w, row, col, outside);
    case Upstairs => UpstairsStairsReturn(w, row, col, outside);
  }

  lemma TryMoveFlags(w: World, d: Dir, outside: Floor)
    ensures TryMove(w, d, outside).flags == w.flags
         || TryMove(w, d, outside).flags == w.flags.(laundryCleared := true)
  {
    if w.moving || w.dialogue.active {
      MoveWhileBusy(w, d, outside);
    } else {
      var turned := w.(player := w.player.(facing := d));
      var t := Neighbour(w.player.row, w.player.col, d);
      var f := FloorOf(w.floor, outside);
      if Tile(f, t.row, t.col) == STAIRS && StairTransition(turned, t.row, t.col, outside).Some? {
        MoveOntoStairs(w, d, outside);
        StairFlags(turned, t.row, t.col, outside);
      } else if IsTileBlocked(f, t.row, t.col) {
        MoveIntoBlocked(w, d, outside);
      } else {
        MoveStartsSlide(w, d, outside);
      }
    }
  }

  lemma FeedCatFlags(w: World, c: CatName)
    ensures FeedCat(w, c).flags ==
      if !Fed(w.flags, c) && Wanted(c) in w.inventory then MarkFed(w.flags, c) else w.flags
  {
    if Fed(w.flags, c) {
      if c == Beatrice {
        BeatriceAlreadyFed(w);
      } else {
        CatAlreadyFed(w, c);
      }
    } else if Refused(c) in w.inventory && Wanted(c) !in w.inventory {
      CatRefuses(w, c);
    } else if Wanted(c) in w.inventory {
      CatEats(w, c);
    } else {
      CatWaits(w, c);
    }
  }

  lemma SofaFlags(w: World)
    ensures SearchSofa(w).flags ==
      if w.flags.aliceFed && !w.flags.sofaSearched && !w.flags.hasBasementKey
      then w.flags.(sofaSearched := true, hasBasementKey := true) else w.flags
  {
    if w.flags.aliceFed && !w.flags.sofaSearched && !w.flags.hasBasementKey {
      SofaGivesKey(w);
    } else {
      SofaEmpty(w);
    }
  }

  lemma BasementDoorFlags(w: World, outside: Floor)
    ensures UseBasementDoor(w, outside).flags ==
      if !w.flags.basementUnlocked && BasementKey in w.inventory
      then w.flags.(basementUnlocked := true) else w.flags
  {
    if w.flags.basementUnlocked {
      BasementDoorOpen(w, outside);
    } else if BasementKey in w.inventory {
      BasementDoorUnlocks(w, outside);
    } else {
      BasementDoorLocked(w, outside);
    }
  }

  lemma ToyFlags(w: World, id: string)
    ensures PickUpToy(w, id).flags ==
      if id in w.flags.catToysFound then w.flags
      else w.flags.(catToysFound := w.flags.catToysFound + [id])
  {
    ToyFoundOnce(w, id);
  }

  lemma AdvanceGrows(w: World, outside: Floor)
    ensures FlagsGrow(w.flags, Advance(w, outside).flags)
  {
    AdvanceFlags(w, outside);
  }

  lemma TryMoveGrows(w: World, d: Dir, outside: Floor)
    ensures FlagsGrow(w.flags, TryMove(w, d, outside).flags)
  {
    TryMoveFlags(w, d, outside);
  }

  /** The interactions that only open a dialogue or move the player leave
      the flags alone. */
  lemma HandleKeepsFlags(w: World, obj: Interactable, outside: Floor)
    requires !obj.kind.Cat? && !obj.kind.Sofa? && !obj.kind.BasementDoor? && !obj.kind.Toy?
    ensures HandleInteraction(w, obj, outside).flags == w.flags
  {
    match obj.kind
    case Flavor(key) => PlayOpens(w, key, NoCallback);
    case FrontDoor => FrontDoorOpens(w, outside);
    case PurrpopsCupboard => PurrpopsCupboardGives(w);
    case FeastCupboard => FeastCupboardGives(w);
    case Unhandled =>
  }

  lemma HandleGrows(w: World, obj: Interactable, outside: Floor)
    ensures FlagsGrow(w.flags, HandleInteraction(w, obj, outside).flags)
  {
    match obj.kind
    case Cat(c) => FeedCatGrows(w, c);
    case Sofa => SofaGrows(w);
    case BasementDoor => BasementDoorGrows(w, outside);
    case Toy(id) => ToyGrows(w, id);
    case _ => HandleKeepsFlags(w, obj, outside);
  }

  lemma FeedCatGrows(w: World, c: CatName)
    ensures FlagsGrow(w.flags, FeedCat(w, c).flags)
  {
    FeedCatFlags(w, c);
  }

  lemma SofaGrows(w: World)
    ensures FlagsGrow(w.flags, SearchSofa(w).flags)
  {
    SofaFlags(w);
  }

  lemma BasementDoorGrows(w: World, outside: Floor)
    ensures FlagsGrow(w.flags, UseBasementDoor(w, outside).flags)
  {
    BasementDoorFlags(w, outside);
  }

  lemma ToyGrows(w: World, id: string)
    ensures FlagsGrow(w.flags, PickUpToy(w, id).flags)
  {
    ToyFlags(w, id);
  }

  lemma PressInteractGrows(w: World, outside: Floor)
    ensures FlagsGrow(w.flags, PressInteract(w, outside).flags)
  {
    if w.numpadOpen {
    } else if w.dialogue.active {
      AdvanceGrows(w, outside);
    } else if CheckLaundry(w).handled {
      PlayOpens(ClearLaundry(w), Script.LaundryPileClear, Cosmetic);
    } else if !w.moving {
      var t := FacingTile(w.player);
      var obj := InteractableAt(FloorOf(w.floor, outside), t.row, t.col);
      if obj.Some? {
        HandleGrows(w, obj.value, outside);
      }
    }
  }

  lemma FrameGrows(w: World, held: Option<Dir>, outside: Floor)
    requires w.moving ==> w.moveTo.Some?
    ensures FlagsGrow(w.flags, LoopFrame(w, held, outside).flags)
  {
    if !w.dialogue.active && !w.moving && held.Some? {
      TryMoveGrows(w, held.value, outside);
    }
  }

  // ----------------------------------------------------------- the steps

  /** A new game starts in a consistent state. */
  lemma NewGameConsistent(w: World, outsideStart: Pos)
    ensures Consistent(StartNewGame(w, outsideStart))
  {
    NewGameResets(w, outsideStart);
    OpensKeeps(ResetWorld(w, outsideStart), StartNewGame(w, outsideStart), Script.Intro, NoCallback);
  }

  lemma ShortCodeKeeps(w: World, code: string, outside: Floor)
    requires Consistent(w) && (|code| < 4 || !w.numpadOpen)
    ensures Consistent(NumpadSubmit(w, code, outside))
  {
    ShortCodeIgnored(w, code, outside);
  }

  lemma RightCodeKeeps(w: World, outside: Floor)
    requires Consistent(w) && w.numpadOpen
    ensures Consistent(NumpadSubmit(w, FRONT_DOOR_CODE, outside))
  {
    RightCodeUnlocks(w, outside);
  }

  lemma WrongCodeKeeps(w: World, code: string, outside: Floor)
    requires Consistent(w) && w.numpadOpen && |code| >= 4 && code != FRONT_DOOR_CODE
    ensures Consistent(NumpadSubmit(w, code, outside))
  {
    WrongCodeRetries(w, code, outside);
  }

  lemma NumpadKeeps(w: World, code: string, outside: Floor)
    requires Consistent(w)
    ensures Consistent(NumpadSubmit(w, code, outside))
  {
    if |code| < 4 || !w.numpadOpen {
      ShortCodeKeeps(w, code, outside);
    } else if code == FRONT_DOOR_CODE {
      RightCodeKeeps(w, outside);
    } else {
      WrongCodeKeeps(w, code, outside);
    }
  }

  /** Every action keeps the invariant. */
  lemma StepKeepsConsistent(w: World, a: Action, outside: Floor, outsideStart: Pos)
    requires Consistent(w)
    ensures Consistent(Step(w, a, outside, outsideStart))
  {
    match a
    case Frame(held) => FrameKeeps(w, held, outside);
    case Interact => PressInteractKeeps(w, outside);
    case TypewriterStep => TypewriterKeeps(w);
    case Submit(code) => NumpadKeeps(w, code, outside);
    case CancelNumpad =>
    case NewGame => NewGameConsistent(w, outsideStart);
    case Restart => NewGameConsistent(HideEnding(w), outsideStart);
  }

  lemma NumpadFlags(w: World, code: string, outside: Floor)
    ensures NumpadSubmit(w, code, outside).flags ==
      if w.numpadOpen && code == FRONT_DOOR_CODE then w.flags.(frontDoorUnlocked := true) else w.flags
  {
    if |code| < 4 || !w.numpadOpen {
      ShortCodeIgnored(w, code, outside);
    } else if code == FRONT_DOOR_CODE {
      RightCodeUnlocks(w, outside);
    } else {
      WrongCodeRetries(w, code, outside);
    }
  }

  /** The two buttons that start the game over. */
  predicate StartsOver(a: Action) {
    a.NewGame? || a.Restart?
  }

  /** Every action but a new game only sets flags and appends toys. */
  lemma StepFlagsGrow(w: World, a: Action, outside: Floor, outsideStart: Pos)
    requires w.moving ==> w.moveTo.Some?
    requires !StartsOver(a)
    ensures FlagsGrow(w.flags, Step(w, a, outside, outsideStart).flags)
  {
    match a
    case Frame(held) => FrameGrows(w, held, outside);
    case Interact => PressInteractGrows(w, outside);
    case TypewriterStep =>
    case Submit(code) => NumpadFlags(w, code, outside);
    case CancelNumpad =>
  }

  /** The state after a sequence of actions. */
  ghost function Run(w: World, acts: seq<Action>, outside: Floor, outsideStart: Pos): World
    requires Consistent(w)
    decreases |acts|
  {
    if acts == [] then w
    else
      StepKeepsConsistent(w, acts[0], outside, outsideStart);
      Run(Step(w, acts[0], outside, outsideStart), acts[1..], outside, outsideStart)
  }

  lemma {:induction false} RunKeepsConsistent(w: World, acts: seq<Action>, outside: Floor, outsideStart: Pos)
    requires Consistent(w)
    ensures Consistent(Run(w, acts, outside, outsideStart))
    decreases |acts|
  {
    if acts != [] {
      StepKeepsConsistent(w, acts[0], outside, outsideStart);
      RunKeepsConsistent(Step(w, acts[0], outside, outsideStart), acts[1..], outside, outsideStart);
    }
  }

  /** Over any run without a new game, flags only become true. */
  lemma {:induction false} RunFlagsGrow(w: World, acts: seq<Action>, outside: Floor, outsideStart: Pos)
    requires Consistent(w)
    requires forall k :: 0 <= k < |acts| ==> !StartsOver(acts[k])
    ensures FlagsGrow(w.flags, Run(w, acts, outside, outsideStart).flags)
    decreases |acts|
  {
    if acts != [] {
      StepKeepsConsistent(w, acts[0], outside, outsideStart);
      StepFlagsGrow(w, acts[0], outside, outsideStart);
      var next := Step(w, acts[0], outside, outsideStart);
      RunFlagsGrow(next, acts[1..], outside, outsideStart);
    }
  }
}
