/** Static floor data: tile codes, the three indoor grids, their interactable
    objects, stair spans and start tiles (data/maps.js). */
module Maps {

  import Script

  // Geometry (data/maps.js:18-20)
  const TILE_SIZE: int := 24
  const MAP_COLS: int := 20
  const MAP_ROWS: int := 15

  // Tile codes, the object `T` (data/maps.js:23-31)
  const FLOOR: int := 0
  const WALL: int := 1
  const FURNITURE: int := 2
  const DOOR: int := 3
  const INTERACT: int := 4
  const STAIRS: int := 5
  const COUNTER: int := 6

  predicate IsTileCode(t: int) { FLOOR <= t <= COUNTER }

  datatype Pos = Pos(row: int, col: int)

  datatype CatName = Alice | Olive | Beatrice

  /** The string tag `type` of an interactable, as the cases of the
      interaction switch in game.js read it. `Flavor(k)` is every object whose
      case only plays the script `k` (its own name, except that
      `riddle_board` plays `outside_riddle_board`); `Unhandled` is a tag the
      switch has no case for. */
  datatype Kind =
    | Flavor(script: Script.Key)
    | FrontDoor
    | PurrpopsCupboard
    | FeastCupboard
    | Cat(cat: CatName)
    | Sofa
    | BasementDoor
    | Toy(toyId: string)
    | Unhandled

  /** One entry of an `interactables` array; `title` is its `label`. */
  datatype Interactable = Interactable(row: int, col: int, kind: Kind, title: string)

  /** A stair transition: the player steps on any (row, col) with row in
      `rows` and col in `cols`. */
  datatype StairSpan = StairSpan(rows: seq<int>, cols: seq<int>)

  datatype Floor = Floor(grid: seq<seq<int>>, interactables: seq<Interactable>, start: Pos)

  datatype FloorId = Outside | Main | Basement | Upstairs

  predicate InBounds(row: int, col: int) {
    0 <= row < MAP_ROWS && 0 <= col < MAP_COLS
  }

  predicate InSpan(s: StairSpan, row: int, col: int) {
    row in s.rows && col in s.cols
  }

  predicate IsAt(obj: Interactable, row: int, col: int) {
    obj.row == row && obj.col == col
  }

  /** The grid is MAP_ROWS rows of MAP_COLS tile codes each. */
  ghost predicate WellFormedGrid(g: seq<seq<int>>) {
    && |g| == MAP_ROWS
    && (forall r :: 0 <= r < |g| ==> |g[r]| == MAP_COLS)
    && (forall r, c :: 0 <= r < |g| && 0 <= c < |g[r]| ==> IsTileCode(g[r][c]))
  }

  /** Every interactable lies inside the grid and no two share a tile. */
  ghost predicate DistinctInBounds(objs: seq<Interactable>) {
    && (forall i :: 0 <= i < |objs| ==> InBounds(objs[i].row, objs[i].col))
    && (forall i, j :: 0 <= i < j < |objs| ==> !IsAt(objs[j], objs[i].row, objs[i].col))
  }

  ghost predicate ValidFloor(f: Floor) {
    WellFormedGrid(f.grid) && DistinctInBounds(f.interactables)
  }

  /** A plain FLOOR tile of the grid with no interactable on it. */
  ghost predicate FreeFloorTile(f: Floor, p: Pos) {
    && 0 <= p.row < |f.grid| && 0 <= p.col < |f.grid[p.row]|
    && f.grid[p.row][p.col] == FLOOR
    && forall i :: 0 <= i < |f.interactables| ==> !IsAt(f.interactables[i], p.row, p.col)
  }

  // ---------------------------------------------------------------- main floor

  const MainGrid: seq<seq<int>> := [
    [1,1,1,1,1,1,1,1,1,1,1,1,1,1,1,1,1,1,1,1],  // top wall
    [1,6,6,6,6,6,6,6,1,0,0,0,0,0,0,0,0,0,0,1],
    [1,4,4,4,4,6,6,4,1,0,0,0,4,0,0,0,0,0,2,1],
    [1,4,0,0,0,4,4,0,1,2,2,0,0,0,4,0,0,0,0,1],
    [1,0,0,0,0,6,6,6,1,2,2,0,0,0,0,0,0,0,0,1],
    [1,0,0,0,0,0,0,0,0,0,0,0,0,0,0,0,0,0,3,1],
    [1,0,0,2,0,0,4,0,0,0,5,5,0,0,0,4,0,0,1,1],
    [1,0,0,2,0,0,4,0,0,0,5,5,0,0,0,0,0,0,4,1],
    [1,0,4,0,0,4,0,0,0,0,0,0,0,0,0,0,0,0,1,1],
    [1,1,1,3,1,1,0,0,0,0,0,0,0,0,0,0,0,0,0,1],
    [1,2,0,0,0,1,0,0,0,0,0,0,2,2,0,0,0,0,0,1],
    [1,2,0,0,0,1,0,0,0,0,0,0,0,0,0,0,0,0,0,1],
    [1,0,0,0,0,1,0,0,0,0,0,0,0,0,0,0,0,0,0,1],
    [1,0,0,0,0,1,0,0,0,0,0,0,0,0,0,0,0,0,0,1],
    [1,1,1,1,1,1,1,1,1,1,1,1,1,1,1,1,1,1,1,1]   // bottom wall
  ]

  const MainInteractables: seq<Interactable> := [
    Interactable(3, 1, Flavor(Script.Fridge), "Fridge"),
    Interactable(2, 1, Flavor(Script.CupboardEmpty), "Cupboard"),
    Interactable(2, 2, PurrpopsCupboard, "Cupboard"),
    Interactable(2, 3, Flavor(Script.CupboardEmpty), "Cupboard"),
    Interactable(2, 4, FeastCupboard, "Cupboard"),
    Interactable(3, 5, Flavor(Script.Stove), "Stove"),
    Interactable(3, 6, Flavor(Script.KitchenSink), "Sink"),
    Interactable(2, 7, Flavor(Script.CoffeeStation), "Coffee Station"),
    Interactable(3, 14, Cat(Alice), "Alice"),
    Interactable(2, 12, Flavor(Script.DiningTable), "Dining Table"),
    Interactable(5, 18, Flavor(Script.SlidingDoor), "Sliding Door"),
    Interactable(6, 6, Flavor(Script.FloorLamp), "Floor Lamp"),
    Interactable(7, 6, Flavor(Script.CoffeeTable), "Coffee Table"),
    Interactable(6, 15, Flavor(Script.Tv), "TV Console"),
    Interactable(8, 2, Flavor(Script.Bookshelf), "Bookshelf"),
    Interactable(8, 5, Sofa, "Sofa"),
    Interactable(7, 18, BasementDoor, "Basement Door")
  ]

  /** `mainFloorStairs.toUpstairs` */
  const MainToUpstairs := StairSpan([6, 7], [10, 11])
  const MainStart := Pos(8, 9)

  // ------------------------------------------------------------------ basement

  const BasementGrid: seq<seq<int>> := [
    [1,1,1,1,1,1,1,1,1,1,1,1,1,1,1,1,1,1,1,1],
    [1,5,5,0,0,0,0,0,0,1,0,0,0,0,0,0,0,0,0,1],
    [1,5,5,0,0,0,0,0,0,1,0,0,0,0,0,0,0,0,0,1],
    [1,0,0,0,0,0,0,0,0,0,0,0,0,0,2,0,0,0,0,1],
    [1,0,0,0,0,0,0,0,0,0,0,0,0,0,0,0,0,0,0,1],
    [1,0,0,0,0,0,0,0,0,1,0,0,0,0,0,0,0,0,0,1],
    [1,1,1,1,3,1,1,1,1,1,0,0,4,0,0,0,0,0,0,1],
    [1,2,0,0,0,0,0,0,0,1,0,0,0,0,0,0,2,0,0,1],
    [1,0,0,0,0,0,0,0,0,1,0,0,0,0,0,0,0,0,0,1],
    [1,0,0,2,0,0,2,0,0,1,0,0,0,0,0,0,0,0,0,1],
    [1,0,0,0,0,0,0,0,0,1,0,0,0,0,0,0,0,0,0,1],
    [1,2,0,0,0,0,0,2,0,1,0,0,0,0,0,0,0,0,0,1],
    [1,0,0,0,0,0,0,0,0,1,0,0,0,0,0,0,0,0,0,1],
    [1,0,0,0,0,0,0,0,0,1,0,0,0,0,0,0,0,0,0,1],
    [1,1,1,1,1,1,1,1,1,1,1,1,1,1,1,1,1,1,1,1]
  ]

  const BasementInteractables: seq<Interactable> := [
    Interactable(6, 12, Cat(Olive), "Olive"),
    Interactable(3, 14, Flavor(Script.Futon), "Futon")
  ]

  /** `basementStairs.toMain` */
  const BasementToMain := StairSpan([1, 2], [1, 2])
  const BasementStart := Pos(3, 2)

  // ------------------------------------------------------------------ upstairs

  const UpstairsGrid: seq<seq<int>> := [
    [1,1,1,1,1,1,1,1,1,1,1,1,1,1,1,1,1,1,1,1],
    [1,0,0,0,0,0,0,0,0,1,0,0,0,0,0,0,0,0,0,1],
    [1,0,2,2,0,0,0,0,0,1,0,0,0,0,0,4,2,0,0,1],
    [1,0,0,0,0,0,0,2,0,1,0,0,0,0,0,0,0,0,0,1],
    [1,0,0,0,0,0,0,0,0,1,0,0,0,0,0,0,0,0,0,1],
    [1,0,0,0,0,0,0,0,0,3,0,0,0,0,0,0,0,0,0,1],
    [1,1,1,3,1,1,0,0,0,1,0,0,0,1,1,3,1,1,1,1],
    [1,0,0,0,0,1,0,0,0,0,0,0,0,1,0,0,0,0,0,1],
    [1,0,0,2,0,1,0,0,0,0,0,0,0,1,0,0,0,2,0,1],
    [1,0,0,2,0,1,0,0,0,0,0,0,0,1,0,0,0,0,0,1],
    [1,0,0,0,0,1,0,0,0,0,0,0,0,1,2,0,0,0,0,1],
    [1,0,0,0,0,1,0,0,0,0,0,0,0,1,0,0,2,0,0,1],
    [1,0,0,0,0,1,0,0,5,5,0,0,0,1,0,0,0,0,0,1],
    [1,0,0,0,0,1,0,0,5,5,0,0,0,1,0,0,0,0,0,1],
    [1,1,1,1,1,1,1,1,1,1,1,1,1,1,1,1,1,1,1,1]
  ]

  const UpstairsInteractables: seq<Interactable> := [
    Interactable(2, 15, Cat(Beatrice), "Beatrice")
  ]

  /** `upstairsStairs.toMain` */
  const UpstairsToMain := StairSpan([12, 13], [8, 9])
  const UpstairsStart := Pos(11, 8)

  // ------------------------------------------------------------ the FLOORS table

  const MainFloor := Floor(MainGrid, MainInteractables, MainStart)
  const BasementFloor := Floor(BasementGrid, BasementInteractables, BasementStart)
  const UpstairsFloor := Floor(UpstairsGrid, UpstairsInteractables, UpstairsStart)

  /** `FLOORS[id]`. The outside floor is defined outside data/maps.js, so it
      is supplied by the caller. */
  function FloorOf(id: FloorId, outside: Floor): Floor {
    match id
    case Outside => outside
    case Main => MainFloor
    case Basement => BasementFloor
    case Upstairs => UpstairsFloor
  }

  /** `FLOORS[id].start`, read without the grids. */
  function StartOf(id: FloorId, outside: Floor): Pos {
    match id
    case Outside => outside.start
    case Main => MainStart
    case Basement => BasementStart
    case Upstairs => UpstairsStart
  }

  lemma StartOfIsStart(id: FloorId, outside: Floor)
    ensures StartOf(id, outside) == FloorOf(id, outside).start
  {
  }

  // ------------------------------------------------------------------- lemmas

  /** Each indoor grid is 15 rows of 20 tile codes. */
  lemma MainGridWellFormed() ensures WellFormedGrid(MainGrid) {
    assert |MainGrid| == 15 && forall r :: 0 <= r < 15 ==> |MainGrid[r]| == 20;
    assert forall r, c :: 0 <= r < 15 && 0 <= c < 20 ==> 0 <= MainGrid[r][c] <= 6;
  }

  lemma BasementGridWellFormed() ensures WellFormedGrid(BasementGrid) {
    assert |BasementGrid| == 15 && forall r :: 0 <= r < 15 ==> |BasementGrid[r]| == 20;
    assert forall r, c :: 0 <= r < 15 && 0 <= c < 20 ==> 0 <= BasementGrid[r][c] <= 6;
  }

  lemma UpstairsGridWellFormed() ensures WellFormedGrid(UpstairsGrid) {
    assert |UpstairsGrid| == 15 && forall r :: 0 <= r < 15 ==> |UpstairsGrid[r]| == 20;
    assert forall r, c :: 0 <= r < 15 && 0 <= c < 20 ==> 0 <= UpstairsGrid[r][c] <= 6;
  }

  /** Rows 0 and 14 of every indoor grid are walls. */
  lemma OuterRowsAreWalls()
    ensures forall c :: 0 <= c < MAP_COLS ==> MainGrid[0][c] == WALL && MainGrid[MAP_ROWS - 1][c] == WALL
    ensures forall c :: 0 <= c < MAP_COLS ==> BasementGrid[0][c] == WALL && BasementGrid[MAP_ROWS - 1][c] == WALL
    ensures forall c :: 0 <= c < MAP_COLS ==> UpstairsGrid[0][c] == WALL && UpstairsGrid[MAP_ROWS - 1][c] == WALL
  {
  }

  /** No two of the first eight main-floor interactables share a tile with
      a later one. */
  lemma MainDistinctLow()
    ensures forall i, j :: 0 <= i < 8 && i < j < |MainInteractables| ==>
      !IsAt(MainInteractables[j], MainInteractables[i].row, MainInteractables[i].col)
  {
    var L := MainInteractables;
    forall i, j | 0 <= i < 8 && i < j < 17 ensures !IsAt(L[j], L[i].row, L[i].col) {
        if i == 0 { assert forall j :: 0 < j < 17 ==> !IsAt(L[j], L[0].row, L[0].col); }
        else if i == 1 { assert forall j :: 1 < j < 17 ==> !IsAt(L[j], L[1].row, L[1].col); }
        else if i == 2 { assert forall j :: 2 < j < 17 ==> !IsAt(L[j], L[2].row, L[2].col); }
        else if i == 3 { assert forall j :: 3 < j < 17 ==> !IsAt(L[j], L[3].row, L[3].col); }
        else if i == 4 { assert forall j :: 4 < j < 17 ==> !IsAt(L[j], L[4].row, L[4].col); }
        else if i == 5 { assert forall j :: 5 < j < 17 ==> !IsAt(L[j], L[5].row, L[5].col); }
        else if i == 6 { assert forall j :: 6 < j < 17 ==> !IsAt(L[j], L[6].row, L[6].col); }
        else { assert forall j :: 7 < j < 17 ==> !IsAt(L[j], L[7].row, L[7].col); }
    }
  }

  lemma MainDistinctHigh()
    ensures forall i, j :: 8 <= i < j < |MainInteractables| ==>
      !IsAt(MainInteractables[j], MainInteractables[i].row, MainInteractables[i].col)
  {
    var L := MainInteractables;
    forall i, j | 8 <= i < j < 17 ensures !IsAt(L[j], L[i].row, L[i].col) {
        if i == 8 { assert forall j :: 8 < j < 17 ==> !IsAt(L[j], L[8].row, L[8].col); }
        else if i == 9 { assert forall j :: 9 < j < 17 ==> !IsAt(L[j], L[9].row, L[9].col); }
        else if i == 10 { assert forall j :: 10 < j < 17 ==> !IsAt(L[j], L[10].row, L[10].col); }
        else if i == 11 { assert forall j :: 11 < j < 17 ==> !IsAt(L[j], L[11].row, L[11].col); }
        else if i == 12 { assert forall j :: 12 < j < 17 ==> !IsAt(L[j], L[12].row, L[12].col); }
        else if i == 13 { assert forall j :: 13 < j < 17 ==> !IsAt(L[j], L[13].row, L[13].col); }
        else if i == 14 { assert forall j :: 14 < j < 17 ==> !IsAt(L[j], L[14].row, L[14].col); }
        else { assert forall j :: 15 < j < 17 ==> !IsAt(L[j], L[15].row, L[15].col); }
    }
  }

  /** Interactables are in bounds and pairwise on distinct tiles. */
  lemma MainInBounds()
    ensures forall i :: 0 <= i < |MainInteractables| ==> InBounds(MainInteractables[i].row, MainInteractables[i].col)
  {
  }

  lemma MainInteractablesDistinct() ensures DistinctInBounds(MainInteractables) {
    MainInBounds();
    MainDistinctLow();
    MainDistinctHigh();
    var L := MainInteractables;
    forall i, j | 0 <= i < j < |L| ensures !IsAt(L[j], L[i].row, L[i].col) {
      if i < 8 {
        assert 0 <= i < 8 && i < j < |L|;
      } else {
        assert 8 <= i < j < |L|;
      }
    }
  }

  lemma BasementInteractablesDistinct() ensures DistinctInBounds(BasementInteractables) {
  }

  lemma UpstairsInteractablesDistinct() ensures DistinctInBounds(UpstairsInteractables) {
  }

  lemma FloorsValid(outside: Floor)
    requires ValidFloor(outside)
    ensures forall id :: ValidFloor(FloorOf(id, outside))
  {
    MainGridWellFormed();
    BasementGridWellFormed();
    UpstairsGridWellFormed();
    MainInteractablesDistinct();
    BasementInteractablesDistinct();
    UpstairsInteractablesDistinct();
  }

  /** The stair spans coincide exactly with the STAIRS tiles of each grid. */
  lemma MainStairsRows0()
    ensures forall r, c :: 0 <= r < 5 && 0 <= c < 20 ==> (MainGrid[r][c] == STAIRS <==> InSpan(MainToUpstairs, r, c))
  {
  }

  lemma MainStairsRows1()
    ensures forall r, c :: 5 <= r < 10 && 0 <= c < 20 ==> (MainGrid[r][c] == STAIRS <==> InSpan(MainToUpstairs, r, c))
  {
  }

  lemma MainStairsRows2()
    ensures forall r, c :: 10 <= r < 15 && 0 <= c < 20 ==> (MainGrid[r][c] == STAIRS <==> InSpan(MainToUpstairs, r, c))
  {
  }

  lemma MainStairsAreSpan()
    ensures forall r, c :: 0 <= r < 15 && 0 <= c < 20 ==> (MainGrid[r][c] == STAIRS <==> InSpan(MainToUpstairs, r, c))
  {
    MainStairsRows0();
    MainStairsRows1();
    MainStairsRows2();
  }

  lemma BasementStairsRows0()
    ensures forall r, c :: 0 <= r < 5 && 0 <= c < 20 ==> (BasementGrid[r][c] == STAIRS <==> InSpan(BasementToMain, r, c))
  {
  }

  lemma BasementStairsRows1()
    ensures forall r, c :: 5 <= r < 10 && 0 <= c < 20 ==> (BasementGrid[r][c] == STAIRS <==> InSpan(BasementToMain, r, c))
  {
  }

  lemma BasementStairsRows2()
    ensures forall r, c :: 10 <= r < 15 && 0 <= c < 20 ==> (BasementGrid[r][c] == STAIRS <==> InSpan(BasementToMain, r, c))
  {
  }

  lemma BasementStairsAreSpan()
    ensures forall r, c :: 0 <= r < 15 && 0 <= c < 20 ==> (BasementGrid[r][c] == STAIRS <==> InSpan(BasementToMain, r, c))
  {
    BasementStairsRows0();
    BasementStairsRows1();
    BasementStairsRows2();
  }

  lemma UpstairsStairsRows0()
    ensures forall r, c :: 0 <= r < 5 && 0 <= c < 20 ==> (UpstairsGrid[r][c] == STAIRS <==> InSpan(UpstairsToMain, r, c))
  {
  }

  lemma UpstairsStairsRows1()
    ensures forall r, c :: 5 <= r < 10 && 0 <= c < 20 ==> (UpstairsGrid[r][c] == STAIRS <==> InSpan(UpstairsToMain, r, c))
  {
  }

  lemma UpstairsStairsRows2()
    ensures forall r, c :: 10 <= r < 15 && 0 <= c < 20 ==> (UpstairsGrid[r][c] == STAIRS <==> InSpan(UpstairsToMain, r, c))
  {
  }

  lemma UpstairsStairsAreSpan()
    ensures forall r, c :: 0 <= r < 15 && 0 <= c < 20 ==> (UpstairsGrid[r][c] == STAIRS <==> InSpan(UpstairsToMain, r, c))
  {
    UpstairsStairsRows0();
    UpstairsStairsRows1();
    UpstairsStairsRows2();
  }

  /** Each indoor floor's start tile is free floor, and so are the two
      landing tiles the basement and upstairs stairs return to. */
  lemma ArrivalTilesFree()
    ensures FreeFloorTile(MainFloor, MainStart)
    ensures FreeFloorTile(BasementFloor, BasementStart)
    ensures FreeFloorTile(UpstairsFloor, UpstairsStart)
    ensures FreeFloorTile(MainFloor, Pos(7, 17))
    ensures FreeFloorTile(MainFloor, Pos(8, 10))
  {
    MainArrivalsFree();
    OtherStartsFree();
  }

  lemma MainArrivalsFree()
    ensures FreeFloorTile(MainFloor, MainStart)
    ensures FreeFloorTile(MainFloor, Pos(7, 17))
    ensures FreeFloorTile(MainFloor, Pos(8, 10))
  {
  }

  lemma OtherStartsFree()
    ensures FreeFloorTile(BasementFloor, BasementStart)
    ensures FreeFloorTile(UpstairsFloor, UpstairsStart)
  {
  }
}
