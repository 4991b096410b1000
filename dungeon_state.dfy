/*
 * The dungeon state the core files read and write: the per-cell grids
 * (hardness, terrain, characters, object piles, the PC distance map), the
 * room list, the object descriptions and the player character.  The
 * headers that declare it (dungeon.h, character.h, pc.h) are not part of
 * this model; only the fields the core files touch are kept.
 */
module DungeonState {
  import opened Grid
  import opened Objects

  /** Number of inventory slots of the PC (MAX_INVENTORY). */
  const MaxInventory: int := 10

  /** The PC's speed (PC_SPEED). */
  const PcSpeed: int := 10

  /**
   * A character.  Only the player character is configured by the core;
   * its inventory `inv` holds one pile per slot, [] being an empty slot.
   */
  class Character {
    var symbol: char
    var position: Pair
    var speed: int
    var alive: int
    var sequenceNumber: int
    var hasPcData: bool      // the `pc` pointer is not NULL
    var hasNpcData: bool     // the `npc` pointer is not NULL
    var killsDirect: int
    var killsAvenged: int
    const inv: array<seq<Object>>

    constructor (symbol: char, position: Pair)
      ensures this.symbol == symbol && this.position == position
      ensures fresh(inv) && inv.Length == MaxInventory
      ensures forall i :: 0 <= i < inv.Length ==> inv[i] == []
    {
      this.symbol := symbol;
      this.position := position;
      speed, alive, sequenceNumber := 0, 0, 0;
      hasPcData, hasNpcData := false, false;
      killsDirect, killsAvenged := 0, 0;
      inv := new seq<Object>[MaxInventory](_ => []);
    }

    /** memset of the character to zero: every field cleared, the inventory kept. */
    method Zero()
      modifies this
      ensures symbol == 0 as char && position == Pair(0, 0) && speed == 0 && alive == 0
      ensures sequenceNumber == 0 && !hasPcData && !hasNpcData
      ensures killsDirect == 0 && killsAvenged == 0
    {
      symbol, position, speed, alive := 0 as char, Pair(0, 0), 0, 0;
      sequenceNumber, hasPcData, hasNpcData := 0, false, false;
      killsDirect, killsAvenged := 0, 0;
    }
  }

  class Dungeon {
    const hardness: array2<int>
    const terrain: array2<Terrain>
    const characterMap: array2<Character?>
    const objmap: array2<seq<Object>>
    const pcDistance: array2<int>
    const pc: Character
    var rooms: seq<Room>
    var objectDescriptions: seq<ObjectDescription>
    var numObjects: nat
    var maxObjects: nat
    var quit: bool

    /** Every grid has the dungeon's size, the rooms lie on it, the PC has its inventory. */
    ghost predicate Valid()
      reads this
    {
      hardness.Length0 == DungeonY && hardness.Length1 == DungeonX &&
      terrain.Length0 == DungeonY && terrain.Length1 == DungeonX &&
      characterMap.Length0 == DungeonY && characterMap.Length1 == DungeonX &&
      objmap.Length0 == DungeonY && objmap.Length1 == DungeonX &&
      pcDistance.Length0 == DungeonY && pcDistance.Length1 == DungeonX &&
      pc.inv.Length == MaxInventory &&
      forall r :: r in rooms ==> RoomFits(r)
    }

    /** A fresh, empty dungeon over the given rooms and descriptions. */
    constructor (rooms: seq<Room>, descriptions: seq<ObjectDescription>, maxObjects: nat)
      requires forall r :: r in rooms ==> RoomFits(r)
      ensures Valid()
      ensures this.rooms == rooms && objectDescriptions == descriptions
      ensures this.maxObjects == maxObjects && numObjects == 0 && !quit
      ensures fresh(hardness) && fresh(terrain) && fresh(characterMap) && fresh(objmap)
      ensures fresh(pcDistance) && fresh(pc) && fresh(pc.inv)
    {
      hardness := new int[DungeonY, DungeonX]((y, x) => 0);
      terrain := new Terrain[DungeonY, DungeonX]((y, x) => Unknown);
      characterMap := new Character?[DungeonY, DungeonX]((y, x) => null);
      objmap := new seq<Object>[DungeonY, DungeonX]((y, x) => []);
      pcDistance := new int[DungeonY, DungeonX]((y, x) => 0);
      pc := new Character('@', Pair(0, 0));
      this.rooms := rooms;
      objectDescriptions := descriptions;
      numObjects := 0;
      this.maxObjects := maxObjects;
      quit := false;
    }
  }
}
