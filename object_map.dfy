/*
 * The object grid `objmap` (Dungeon_Crawler/object.cpp): pushing onto a
 * cell's pile, generating the level's objects and clearing the grid.
 * Every cell holds a pile, newest object first; [] stands for NULL.
 */
module ObjectMap {
  import opened Grid
  import opened Objects
  import opened DungeonState

  /** Every cell other than `p` holds the same pile as before. */
  twostate predicate OtherCellsUnchanged(d: Dungeon, p: Pair)
    requires d.Valid()
    reads d, d.objmap
  {
    forall y, x :: 0 <= y < DungeonY && 0 <= x < DungeonX && Pair(y, x) != p ==>
      d.objmap[y, x] == old(d.objmap[y, x])
  }

  /**
   * object::to_pile: the object's next becomes the cell's old pile and the
   * cell's pile head becomes the object; no other cell changes.
   */
  method ToPile(d: Dungeon, o: Object, location: Pair)
    requires d.Valid() && InGrid(location)
    modifies d.objmap
    ensures d.objmap[location.y, location.x] == [o] + old(d.objmap[location.y, location.x])
    ensures OtherCellsUnchanged(d, location)
  {
    d.objmap[location.y, location.x] := [o] + d.objmap[location.y, location.x];
  }

  /** A description gen_object may settle on: generable, and not a potion. */
  predicate Generable(od: ObjectDescription) {
    od.canBeGenerated && od.otype != Potion
  }

  /** A cell gen_object may put an object on: terrain no further than ter_stairs. */
  predicate ObjectSpot(d: Dungeon, p: Pair)
    requires d.Valid()
    reads d, d.terrain
  {
    InGrid(p) && Rank(d.terrain[p.y, p.x]) <= Rank(Stairs)
  }

  /** The room has a cell gen_object's position loop can end on. */
  ghost predicate RoomHasSpot(d: Dungeon, r: Room)
    requires d.Valid()
    reads d, d.terrain
  {
    exists y, x :: InRoom(r, Pair(y, x)) && ObjectSpot(d, Pair(y, x))
  }

  /**
   * What gen_objects can leave on a cell `p` whose terrain is `t`: nothing,
   * or one unseen object, made from a generable description, lying on `p`,
   * a cell of some room with terrain up to ter_stairs.
   */
  predicate WellStocked(pile: seq<Object>, p: Pair, t: Terrain, rooms: seq<Room>, v: seq<ObjectDescription>) {
    pile == [] ||
    (|pile| == 1 && pile[0].position == p && !pile[0].seen &&
     Rank(t) <= Rank(Stairs) &&
     (exists r :: r in rooms && InRoom(r, p)) &&
     (exists i :: 0 <= i < |v| && Generable(v[i]) && FromDescription(pile[0], v[i])))
  }

  /** Every cell of the grid is as gen_objects leaves it. */
  ghost predicate AllWellStocked(d: Dungeon)
    requires d.Valid()
    reads d, d.objmap, d.terrain
  {
    forall y, x :: 0 <= y < DungeonY && 0 <= x < DungeonX ==>
      WellStocked(d.objmap[y, x], Pair(y, x), d.terrain[y, x], d.rooms, d.objectDescriptions)
  }

  /**
   * gen_object: draw descriptions until one is generable and not a potion,
   * draw a room, draw cells of that room until one has terrain up to
   * ter_stairs, then make the object there.  The constructor links the
   * object onto the cell's old pile and the code at once unlinks it again
   * (set_next(NULL)), so the cell ends up holding the new object alone.
   * The random draws are choices; the loops end only when a choice
   * exists, for every room the room draw can return.  The cell is
   * returned so that the contract can name it.
   */
  method GenObject(d: Dungeon, rolled: Stats) returns (p: Pair)
    requires d.Valid() && |d.rooms| >= 1
    requires exists i :: 0 <= i < |d.objectDescriptions| && Generable(d.objectDescriptions[i])
    requires forall r :: r in d.rooms ==> RoomHasSpot(d, r)
    modifies d.objmap
    ensures ObjectSpot(d, p) && exists r :: r in d.rooms && InRoom(r, p)
    ensures |d.objmap[p.y, p.x]| == 1
    ensures var o := d.objmap[p.y, p.x][0];
      o.position == p && !o.seen && o.stats == rolled &&
      exists i :: 0 <= i < |d.objectDescriptions| &&
        Generable(d.objectDescriptions[i]) && FromDescription(o, d.objectDescriptions[i])
    ensures OtherCellsUnchanged(d, p)
  {
    var v := d.objectDescriptions;
    var i :| 0 <= i < |v| && Generable(v[i]);
    var room :| 0 <= room < |d.rooms|;
    assert RoomHasSpot(d, d.rooms[room]);
    var y, x :| InRoom(d.rooms[room], Pair(y, x)) && ObjectSpot(d, Pair(y, x));
    p := Pair(y, x);
    var linked := NewObject(v[i], p, rolled, d.objmap[y, x]);
    var o := linked[0];
    d.objmap[y, x] := [o];
  }

  /** Every cell that holds an object is in `cells`. */
  ghost predicate OccupiedWithin(d: Dungeon, cells: set<Pair>)
    requires d.Valid()
    reads d, d.objmap
  {
    forall y, x :: 0 <= y < DungeonY && 0 <= x < DungeonX && d.objmap[y, x] != [] ==> Pair(y, x) in cells
  }

  /** Every object on the grid carries one of the first n `rolls`. */
  ghost predicate RolledFrom(d: Dungeon, rolls: seq<Stats>, n: int)
    requires d.Valid()
    reads d, d.objmap
  {
    forall y, x :: 0 <= y < DungeonY && 0 <= x < DungeonX && d.objmap[y, x] != [] ==>
      exists j :: 0 <= j < n && j < |rolls| && d.objmap[y, x][0].stats == rolls[j]
  }

  /**
   * One gen_object call of gen_objects' loop, the i-th, with what the loop
   * knows about the grid so far: the new object's cell joins `cells`, the
   * object carries `rolls[i]`, and a cell that held one object still does.
   */
  method PlaceObject(d: Dungeon, rolls: seq<Stats>, i: int, ghost cells: set<Pair>) returns (p: Pair)
    requires d.Valid() && |d.rooms| >= 1 && 0 <= i < |rolls|
    requires exists k :: 0 <= k < |d.objectDescriptions| && Generable(d.objectDescriptions[k])
    requires forall r :: r in d.rooms ==> RoomHasSpot(d, r)
    requires AllWellStocked(d) && RolledFrom(d, rolls, i) && OccupiedWithin(d, cells)
    modifies d.objmap
    ensures AllWellStocked(d) && RolledFrom(d, rolls, i + 1) && OccupiedWithin(d, cells + {p})
    ensures InGrid(p) && |d.objmap[p.y, p.x]| == 1
    ensures forall y, x :: 0 <= y < DungeonY && 0 <= x < DungeonX && |old(d.objmap[y, x])| == 1 ==>
      |d.objmap[y, x]| == 1
  {
    p := GenObject(d, rolls[i]);
  }

  /**
   * gen_objects: clear every cell, call gen_object max_objects times, and
   * record num_objects = max_objects.  `rolls[i]` is what the i-th object's
   * dice roll.  Afterwards every cell holds nothing or one generated
   * object lying on that cell, every object is one of this call's, at
   * most max_objects cells hold one (two objects can land on the same
   * cell, the later replacing the earlier), and at least one does when
   * max_objects is positive.
   */
  method GenObjects(d: Dungeon, rolls: seq<Stats>)
    requires d.Valid() && |d.rooms| >= 1 && |rolls| == d.maxObjects
    requires exists i :: 0 <= i < |d.objectDescriptions| && Generable(d.objectDescriptions[i])
    requires forall r :: r in d.rooms ==> RoomHasSpot(d, r)
    modifies d.objmap, d`numObjects
    ensures d.numObjects == d.maxObjects
    ensures AllWellStocked(d)
    ensures RolledFrom(d, rolls, |rolls|)
    ensures exists cells :: |cells| <= d.maxObjects && OccupiedWithin(d, cells)
    ensures d.maxObjects > 0 ==>
      exists y, x :: 0 <= y < DungeonY && 0 <= x < DungeonX && |d.objmap[y, x]| == 1
  {
    forall y, x | 0 <= y < DungeonY && 0 <= x < DungeonX {
      d.objmap[y, x] := [];
    }
    ghost var placed: set<Pair> := {};
    ghost var last := Pair(0, 0);
    for i := 0 to d.maxObjects
      invariant d.Valid()
      invariant AllWellStocked(d) && RolledFrom(d, rolls, i)
      invariant |placed| <= i && OccupiedWithin(d, placed)
      invariant i > 0 ==> InGrid(last) && |d.objmap[last.y, last.x]| == 1
    {
      var p := PlaceObject(d, rolls, i, placed);
      placed, last := placed + {p}, p;
    }
    d.numObjects := d.maxObjects;
  }

  /** destroy_objects: every cell of `objmap` is emptied. */
  method DestroyObjects(d: Dungeon)
    requires d.Valid()
    modifies d.objmap
    ensures forall y, x :: 0 <= y < DungeonY && 0 <= x < DungeonX ==> d.objmap[y, x] == []
  {
    var y := 0;
    while y < DungeonY
      invariant 0 <= y <= DungeonY
      invariant forall i, j :: 0 <= i < y && 0 <= j < DungeonX ==> d.objmap[i, j] == []
    {
      var x := 0;
      while x < DungeonX
        invariant 0 <= x <= DungeonX
        invariant forall i, j :: 0 <= i < y && 0 <= j < DungeonX ==> d.objmap[i, j] == []
        invariant forall j :: 0 <= j < x ==> d.objmap[y, j] == []
      {
        if d.objmap[y, x] != [] {
          d.objmap[y, x] := [];
        }
        x := x + 1;
      }
      y := y + 1;
    }
  }
}
