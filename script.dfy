/** The dialogue table `DIALOGUE` (data/dialogue.js). Each key maps to a
    fixed sequence of messages; a message is modelled by its speaker and the
    length of its text in UTF-16 code units, which is what the typewriter
    counts. The texts themselves are not modelled. */
module Script {

  datatype Speaker = Marice | Alice | Olive | Beatrice

  datatype Message = Message(speaker: Speaker, length: nat)

  /** The keys of `DIALOGUE`, in declaration order; each constructor is its
      key written in CamelCase (`alice_wrong_item` is AliceWrongItem). */
  datatype Key =
    | Intro | AliceBefore | AliceWrongItem | AliceAfter | AliceDone | OliveBefore | OliveWrongItem
    | OliveAfter | OliveDone | BeatriceBefore | BeatriceWrongItem | BeatriceAfter | Fridge | Stove
    | KitchenSink | CoffeeStation | DiningTable | CupboardEmpty | CupboardPurrpops | CupboardFeast
    | SofaBlanket | SofaBlanketEmpty | BasementDoorLocked | BasementDoorUnlock | LaundryPileBlocked
    | LaundryPileClear | SlidingDoor | Tv | FloorLamp | CoffeeTable | Bookshelf | Futon | Microwave
    | TrashCan | SpiceRack | ChinaCabinet | Plant | GameConsole | SideTable | ReadingChair | BathroomMirror
    | TowelRack | Rug | WallArt | CoatRack | Weights | ExerciseBike | YogaMat | StorageBox | Washer
    | Dryer | LaundryBasketStorage | CleaningSupplies | PoolTable | MiniFridge | GamingSetup
    | BathMat | BathroomCabinet | ToolBench | WaterHeater | BookshelfBasement | Nightstand | Dresser
    | JewelryBox | Wardrobe | BedsideLamp | GuestDresser | ReadingNook | FilingCabinet | OfficeChair
    | Printer | Bookcase | BathroomScale | MedicineCabinet | TowelWarmer | HallwayTable | PlantHallway
    | FamilyPhotos | CoatHooks | CeilingFan | LinenCloset | OutsideRiddleBoard | FrontDoorLocked
    | WelcomeMat | PorchLight | FlowerBed | BirdBath | Mailbox | GardenGnome | GardenBench | CatToyJingleBall
    | CatToyFeatherWand | CatToyLaserPointer | CatToyFound

  /** `DIALOGUE[key]` */
  function Lookup(key: Key): seq<Message> {
    match key
    case Intro => [Message(Marice, 78), Message(Marice, 63), Message(Marice, 92)]
    case AliceBefore => [Message(Alice, 97), Message(Marice, 121), Message(Alice, 107)]
    case AliceWrongItem => [Message(Marice, 78), Message(Alice, 73), Message(Alice, 64)]
    case AliceAfter => [Message(Marice, 50), Message(Alice, 87), Message(Alice, 109)]
    case AliceDone => [Message(Alice, 72), Message(Marice, 31), Message(Alice, 26)]
    case OliveBefore => [Message(Marice, 90), Message(Olive, 104), Message(Olive, 100)]
    case OliveWrongItem => [Message(Marice, 71), Message(Olive, 73), Message(Olive, 90)]
    case OliveAfter => [Message(Marice, 54), Message(Olive, 95), Message(Olive, 122)]
    case OliveDone => [Message(Olive, 74), Message(Marice, 25), Message(Olive, 90)]
    case BeatriceBefore => [Message(Marice, 71), Message(Beatrice, 71), Message(Beatrice, 104)]
    case BeatriceWrongItem => [Message(Marice, 44), Message(Beatrice, 92), Message(Beatrice, 105)]
    case BeatriceAfter => [Message(Marice, 83), Message(Beatrice, 83), Message(Beatrice, 111)]
    case Fridge => [Message(Marice, 80)]
    case Stove => [Message(Marice, 51)]
    case KitchenSink => [Message(Marice, 53)]
    case CoffeeStation => [Message(Marice, 60)]
    case DiningTable => [Message(Marice, 63)]
    case CupboardEmpty => [Message(Marice, 70)]
    case CupboardPurrpops => [Message(Marice, 71)]
    case CupboardFeast => [Message(Marice, 82)]
    case SofaBlanket => [Message(Marice, 87)]
    case SofaBlanketEmpty => [Message(Marice, 63)]
    case BasementDoorLocked => [Message(Marice, 53)]
    case BasementDoorUnlock => [Message(Marice, 80)]
    case LaundryPileBlocked => [Message(Marice, 95)]
    case LaundryPileClear => [Message(Marice, 86)]
    case SlidingDoor => [Message(Marice, 79)]
    case Tv => [Message(Marice, 64)]
    case FloorLamp => [Message(Marice, 61)]
    case CoffeeTable => [Message(Marice, 62)]
    case Bookshelf => [Message(Marice, 73)]
    case Futon => [Message(Marice, 61)]
    case Microwave => [Message(Marice, 73)]
    case TrashCan => [Message(Marice, 63)]
    case SpiceRack => [Message(Marice, 61)]
    case ChinaCabinet => [Message(Marice, 62)]
    case Plant => [Message(Marice, 69)]
    case GameConsole => [Message(Marice, 66)]
    case SideTable => [Message(Marice, 48)]
    case ReadingChair => [Message(Marice, 53)]
    case BathroomMirror => [Message(Marice, 60)]
    case TowelRack => [Message(Marice, 51)]
    case Rug => [Message(Marice, 55)]
    case WallArt => [Message(Marice, 42)]
    case CoatRack => [Message(Marice, 54)]
    case Weights => [Message(Marice, 68)]
    case ExerciseBike => [Message(Marice, 66)]
    case YogaMat => [Message(Marice, 60)]
    case StorageBox => [Message(Marice, 56)]
    case Washer => [Message(Marice, 59)]
    case Dryer => [Message(Marice, 45)]
    case LaundryBasketStorage => [Message(Marice, 64)]
    case CleaningSupplies => [Message(Marice, 55)]
    case PoolTable => [Message(Marice, 62)]
    case MiniFridge => [Message(Marice, 65)]
    case GamingSetup => [Message(Marice, 72)]
    case BathMat => [Message(Marice, 43)]
    case BathroomCabinet => [Message(Marice, 59)]
    case ToolBench => [Message(Marice, 70)]
    case WaterHeater => [Message(Marice, 59)]
    case BookshelfBasement => [Message(Marice, 71)]
    case Nightstand => [Message(Marice, 69)]
    case Dresser => [Message(Marice, 69)]
    case JewelryBox => [Message(Marice, 65)]
    case Wardrobe => [Message(Marice, 58)]
    case BedsideLamp => [Message(Marice, 66)]
    case GuestDresser => [Message(Marice, 63)]
    case ReadingNook => [Message(Marice, 58)]
    case FilingCabinet => [Message(Marice, 65)]
    case OfficeChair => [Message(Marice, 63)]
    case Printer => [Message(Marice, 47)]
    case Bookcase => [Message(Marice, 57)]
    case BathroomScale => [Message(Marice, 67)]
    case MedicineCabinet => [Message(Marice, 55)]
    case TowelWarmer => [Message(Marice, 65)]
    case HallwayTable => [Message(Marice, 71)]
    case PlantHallway => [Message(Marice, 63)]
    case FamilyPhotos => [Message(Marice, 67)]
    case CoatHooks => [Message(Marice, 55)]
    case CeilingFan => [Message(Marice, 62)]
    case LinenCloset => [Message(Marice, 72)]
    case OutsideRiddleBoard => [Message(Marice, 27), Message(Marice, 88)]
    case FrontDoorLocked => [Message(Marice, 43), Message(Marice, 115), Message(Marice, 47)]
    case WelcomeMat => [Message(Marice, 80)]
    case PorchLight => [Message(Marice, 61)]
    case FlowerBed => [Message(Marice, 75)]
    case BirdBath => [Message(Marice, 82)]
    case Mailbox => [Message(Marice, 69)]
    case GardenGnome => [Message(Marice, 63)]
    case GardenBench => [Message(Marice, 58)]
    case CatToyJingleBall => [Message(Marice, 84), Message(Marice, 84)]
    case CatToyFeatherWand => [Message(Marice, 78), Message(Marice, 82)]
    case CatToyLaserPointer => [Message(Marice, 56), Message(Marice, 78)]
    case CatToyFound => [Message(Marice, 60)]
  }

  // The table's sections, in the order data/dialogue.js lists them.

  /** The section of the intro and the cats' scripts. */
  predicate IsStoryScript(key: Key) {
    key in {Intro, AliceBefore, AliceWrongItem, AliceAfter, AliceDone, OliveBefore, OliveWrongItem,
            OliveAfter, OliveDone, BeatriceBefore, BeatriceWrongItem, BeatriceAfter}
  }

  /** The section of the quest objects and the first furniture. */
  predicate IsObjectScript(key: Key) {
    key in {Fridge, Stove, KitchenSink, CoffeeStation, DiningTable, CupboardEmpty,
            CupboardPurrpops, CupboardFeast, SofaBlanket, SofaBlanketEmpty, BasementDoorLocked,
            BasementDoorUnlock, LaundryPileBlocked, LaundryPileClear, SlidingDoor, Tv, FloorLamp,
            CoffeeTable, Bookshelf, Futon}
  }

  /** The section of the main floor's other furniture. */
  predicate IsMainPropScript(key: Key) {
    key in {Microwave, TrashCan, SpiceRack, ChinaCabinet, Plant, GameConsole, SideTable,
            ReadingChair, BathroomMirror, TowelRack, Rug, WallArt, CoatRack}
  }

  /** The section of the basement's furniture. */
  predicate IsBasementPropScript(key: Key) {
    key in {Weights, ExerciseBike, YogaMat, StorageBox, Washer, Dryer, LaundryBasketStorage,
            CleaningSupplies, PoolTable, MiniFridge, GamingSetup, BathMat, BathroomCabinet,
            ToolBench, WaterHeater, BookshelfBasement}
  }

  /** The first half of the upstairs furniture: the bedrooms and the office. */
  predicate IsUpstairsRoomScript(key: Key) {
    key in {Nightstand, Dresser, JewelryBox, Wardrobe, BedsideLamp, GuestDresser, ReadingNook,
            FilingCabinet, OfficeChair, Printer, Bookcase}
  }

  /** The second half of the upstairs furniture: the bathroom and the hallway. */
  predicate IsUpstairsHallScript(key: Key) {
    key in {BathroomScale, MedicineCabinet, TowelWarmer, HallwayTable, PlantHallway, FamilyPhotos,
            CoatHooks, CeilingFan, LinenCloset}
  }

  /** The section of the outside, apart from the riddle plaque and the
      front door. */
  predicate IsOutsideScript(key: Key) {
    key in {WelcomeMat, PorchLight, FlowerBed, BirdBath, Mailbox, GardenGnome, GardenBench}
  }

  /** The scripts of the toy discoveries. */
  predicate IsToyScript(key: Key) {
    key in {CatToyJingleBall, CatToyFeatherWand, CatToyLaserPointer, CatToyFound}
  }

  /** Every entry is a non-empty sequence of at most three messages. */
  lemma ScriptLengths(key: Key)
    ensures Lookup(key) != []
    ensures 1 <= |Lookup(key)| <= 3
  {
    if IsStoryScript(key) {
      StoryLengths(key);
    } else if IsObjectScript(key) {
      ObjectLengths(key);
    } else if IsMainPropScript(key) {
      MainPropLengths(key);
    } else if IsBasementPropScript(key) {
      BasementPropLengths(key);
    } else if IsUpstairsRoomScript(key) {
      UpstairsRoomLengths(key);
    } else if IsUpstairsHallScript(key) {
      UpstairsHallLengths(key);
    } else if IsOutsideScript(key) {
      OutsideLengths(key);
    } else if key == OutsideRiddleBoard || key == FrontDoorLocked {
    } else {
      ToyLengths(key);
    }
  }

  /** The intro and every cat script have three messages. */
  lemma StoryLengths(key: Key)
    requires IsStoryScript(key)
    ensures |Lookup(key)| == 3
  {
  }

  /** Each script of the object sections has a single message. */
  lemma ObjectLengths(key: Key)
    requires IsObjectScript(key)
    ensures |Lookup(key)| == 1
  {
  }

  lemma MainPropLengths(key: Key)
    requires IsMainPropScript(key)
    ensures |Lookup(key)| == 1
  {
  }

  lemma BasementPropLengths(key: Key)
    requires IsBasementPropScript(key)
    ensures |Lookup(key)| == 1
  {
  }

  lemma UpstairsRoomLengths(key: Key)
    requires IsUpstairsRoomScript(key)
    ensures |Lookup(key)| == 1
  {
  }

  lemma UpstairsHallLengths(key: Key)
    requires IsUpstairsHallScript(key)
    ensures |Lookup(key)| == 1
  {
  }

  lemma OutsideLengths(key: Key)
    requires IsOutsideScript(key)
    ensures |Lookup(key)| == 1
  {
  }

  /** The riddle plaque has two messages and the locked front door three. */
  lemma EntranceLengths()
    ensures |Lookup(OutsideRiddleBoard)| == 2
    ensures |Lookup(FrontDoorLocked)| == 3
  {
  }

  /** A toy's discovery has two messages; the "found" message has one. */
  lemma ToyLengths(key: Key)
    requires IsToyScript(key)
    ensures |Lookup(key)| == if key == CatToyFound then 1 else 2
  {
  }
}
