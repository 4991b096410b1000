/*
 * Shared types of the dungeon: the grid size, cell coordinates, rooms and
 * terrain kinds.  The header that declares them (dungeon.h) is not part of
 * this model; the sizes and the order of the terrain kinds are the ones
 * the code relies on (see README.md).
 */
module Grid {

  /** Width (DUNGEON_X) and height (DUNGEON_Y) of the dungeon grid. */
  const DungeonX: int := 80
  const DungeonY: int := 21

  /** A cell coordinate, a pair_t indexed by dim_y and dim_x. */
  datatype Pair = Pair(y: int, x: int)

  /** A rectangular room: its upper-left corner and its extent on both axes. */
  datatype Room = Room(position: Pair, size: Pair)

  /** The terrain kinds, in the order of the terrain enumeration. */
  datatype Terrain =
    | Debug
    | Unknown
    | Wall
    | WallImmutable
    | Floor
    | FloorRoom
    | FloorHall
    | Stairs
    | StairsUp
    | StairsDown
    | Marketplace

  /** The enumeration value of a terrain kind; the code compares terrains with < and >. */
  function Rank(t: Terrain): (r: nat)
    ensures r <= 10
  {
    match t
    case Debug => 0
    case Unknown => 1
    case Wall => 2
    case WallImmutable => 3
    case Floor => 4
    case FloorRoom => 5
    case FloorHall => 6
    case Stairs => 7
    case StairsUp => 8
    case StairsDown => 9
    case Marketplace => 10
  }

  predicate InGrid(p: Pair) {
    0 <= p.y < DungeonY && 0 <= p.x < DungeonX
  }

  /** Inside the immutable border: rows 1..DUNGEON_Y-2 and columns 1..DUNGEON_X-2. */
  predicate Interior(p: Pair) {
    1 <= p.y <= DungeonY - 2 && 1 <= p.x <= DungeonX - 2
  }

  /** The cells of a room: from its position up to position + size - 1 on both axes. */
  predicate InRoom(r: Room, p: Pair) {
    r.position.y <= p.y < r.position.y + r.size.y &&
    r.position.x <= p.x < r.position.x + r.size.x
  }

  /** A room that is not empty and lies on the grid. */
  predicate RoomFits(r: Room) {
    1 <= r.size.y && 1 <= r.size.x &&
    0 <= r.position.y && r.position.y + r.size.y <= DungeonY &&
    0 <= r.position.x && r.position.x + r.size.x <= DungeonX
  }
}
