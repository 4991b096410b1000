/*
 * io_teleport_pc (Dungeon_Crawler/io.cpp): a cursor starts on the PC and
 * is moved with the movement keys, never leaving the cells inside the
 * immutable border; 't' teleports the PC to the cursor and 'r' to a
 * random free floor cell.  Drawing the cursor and the terrain under it,
 * and the distance maps recomputed afterwards, are not part of this model.
 */
module Teleport {
  import opened Grid
  import opened DungeonState
  import opened Keys
  import opened Messages

  /** The message queued when the destination holds another character. */
  const OccupiedMessage: string := "Teleport failed.  Destination occupied."

  /**
   * One coordinate of the cursor after a step of `delta`: it moves down to
   * 1 and up to `hi` but not past them.
   */
  function StepAxis(c: int, delta: int, hi: int): int {
    if delta < 0 then (if c != 1 then c - 1 else c)
    else if delta > 0 then (if c != hi then c + 1 else c)
    else c
  }

  /** The interior value nearest to c. */
  function Clamp(c: int, lo: int, hi: int): int {
    if c < lo then lo else if c > hi then hi else c
  }

  /**
   * The key switch of io_teleport_pc: a movement key moves the cursor one
   * cell in its direction on each axis where it is not at the border; any
   * other key leaves it.  From an interior cell the cursor stays interior,
   * and lands where the step would take it, pulled back inside.
   */
  function CursorMove(dest: Pair, key: int): (r: Pair)
    ensures Interior(dest) ==> Interior(r)
    ensures Interior(dest) && MoveDirection(key) != 0 ==>
      var v := DirectionVector(MoveDirection(key));
      r == Pair(Clamp(dest.y + v.y, 1, DungeonY - 2), Clamp(dest.x + v.x, 1, DungeonX - 2))
    ensures MoveDirection(key) == 0 ==> r == dest
  {
    var dir := MoveDirection(key);
    if dir == 0 then dest
    else
      var v := DirectionVector(dir);
      Pair(StepAxis(dest.y, v.y, DungeonY - 2), StepAxis(dest.x, v.x, DungeonX - 2))
  }

  /** The cursor after the keys, read in order from `start`. */
  function CursorAfter(start: Pair, keys: seq<int>): (r: Pair)
    ensures Interior(start) ==> Interior(r)
  {
    if keys == [] then start
    else CursorMove(CursorAfter(start, keys[..|keys| - 1]), keys[|keys| - 1])
  }

  /** The cursor moves at most one cell per key on each axis. */
  lemma {:induction false} CursorAfterNear(start: Pair, keys: seq<int>)
    requires Interior(start)
    ensures var r := CursorAfter(start, keys);
      start.y - |keys| <= r.y <= start.y + |keys| && start.x - |keys| <= r.x <= start.x + |keys|
  {
    if keys != [] {
      CursorAfterNear(start, keys[..|keys| - 1]);
    }
  }

  /** The keys that end the cursor loop. */
  predicate IsEndKey(key: int) {
    key == Code('t') || key == Code('r')
  }

  /** The first key that ends the loop is at `e`. */
  predicate FirstEndAt(keys: seq<int>, e: int) {
    0 <= e < |keys| && IsEndKey(keys[e]) && forall k :: 0 <= k < e ==> !IsEndKey(keys[k])
  }

  /** A cell the random teleport may pick: interior, no character, terrain at least ter_floor. */
  predicate FreeFloor(d: Dungeon, p: Pair)
    requires d.Valid()
    reads d, d.characterMap, d.terrain
  {
    Interior(p) && d.characterMap[p.y, p.x] == null && Rank(d.terrain[p.y, p.x]) >= Rank(Floor)
  }

  /** Every cell but a and b holds the same character as before. */
  twostate predicate CharactersElsewhereUnchanged(d: Dungeon, a: Pair, b: Pair)
    requires d.Valid()
    reads d, d.characterMap
  {
    forall y, x :: 0 <= y < DungeonY && 0 <= x < DungeonX && Pair(y, x) != a && Pair(y, x) != b ==>
      d.characterMap[y, x] == old(d.characterMap[y, x])
  }

  /**
   * io_teleport_pc.  The keys are read until 't' or 'r' (`used` of them);
   * the cursor follows the movement keys.  With 'r' the destination is
   * drawn again and again until it is a free floor cell, so such a cell
   * must exist.  A destination holding a character other than the PC
   * queues a message and moves nothing; otherwise the PC's old cell is
   * cleared, the destination holds the PC and the PC stands on it.  The
   * screen is drawn on entry (io_display_no_fog) and on exit (io_display),
   * and each drawing shows and empties the message queue: `shown` lists
   * what was shown, and the queue is left empty.
   */
  method TeleportPc(d: Dungeon, q: MessageQueue, keys: seq<int>)
    returns (dest: Pair, used: nat, moved: bool, shown: seq<string>)
    requires d.Valid() && Interior(d.pc.position) && q.Valid()
    requires exists e :: 0 <= e < |keys| && IsEndKey(keys[e])
    requires forall e :: FirstEndAt(keys, e) && keys[e] == Code('r') ==>
      exists y, x :: FreeFloor(d, Pair(y, x))
    modifies d.characterMap, d.pc`position, q
    ensures FirstEndAt(keys, used - 1) && Interior(dest)
    ensures keys[used - 1] == Code('t') ==> dest == CursorAfter(old(d.pc.position), keys[..used - 1])
    ensures keys[used - 1] == Code('r') ==>
      old(d.characterMap[dest.y, dest.x]) == null && Rank(d.terrain[dest.y, dest.x]) >= Rank(Floor)
    ensures moved <==> old(d.characterMap[dest.y, dest.x]) == null || old(d.characterMap[dest.y, dest.x]) == d.pc
    ensures moved ==>
      d.pc.position == dest && d.characterMap[dest.y, dest.x] == d.pc &&
      (old(d.pc.position) != dest ==> d.characterMap[old(d.pc.position).y, old(d.pc.position).x] == null) &&
      CharactersElsewhereUnchanged(d, old(d.pc.position), dest)
    ensures !moved ==>
      d.pc.position == old(d.pc.position) &&
      (forall y, x :: 0 <= y < DungeonY && 0 <= x < DungeonX ==> d.characterMap[y, x] == old(d.characterMap[y, x]))
    ensures shown == old(q.msgs) + (if moved then [] else [OccupiedMessage])
    ensures q.msgs == [] && q.Valid()
  {
    var before, _ := q.Drain();
    var start := d.pc.position;
    dest := start;
    var i := 0;
    while !IsEndKey(keys[i])
      invariant 0 <= i < |keys|
      invariant forall k :: 0 <= k < i ==> !IsEndKey(keys[k])
      invariant exists e :: i <= e < |keys| && IsEndKey(keys[e])
      invariant dest == CursorAfter(start, keys[..i])
      decreases |keys| - i
    {
      assert keys[..i + 1][..i] == keys[..i];
      dest := CursorMove(dest, keys[i]);
      i := i + 1;
    }
    used := i + 1;
    if keys[i] == Code('r') {
      var y, x :| FreeFloor(d, Pair(y, x));
      dest := Pair(y, x);
    }
    var occupant := d.characterMap[dest.y, dest.x];
    if occupant != null && occupant != d.pc {
      q.Enqueue(OccupiedMessage);
      moved := false;
    } else {
      d.characterMap[start.y, start.x] := null;
      d.characterMap[dest.y, dest.x] := d.pc;
      d.pc.position := dest;
      moved := true;
    }
    var after, _ := q.Drain();
    shown := before + after;
  }
}
