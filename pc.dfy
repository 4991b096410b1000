/*
 * The player character (Dungeon_Crawler/pc.c): whether the PC is in a
 * room, placing and configuring it, and the key loop of pc_next_pos that
 * turns a key into a step.
 */
module Pc {
  import opened Wrappers
  import opened Grid
  import opened DungeonState
  import opened Keys

  /** pc_is_alive: the PC's alive flag. */
  function PcIsAlive(d: Dungeon): (alive: int)
    reads d.pc
    ensures alive == d.pc.alive
  {
    d.pc.alive
  }

  /**
   * pc_in_room: 1 when `room` names one of the dungeon's rooms and the PC
   * lies in it, the room's extent being half-open on both axes; else 0.
   */
  function PcInRoom(d: Dungeon, room: nat): (r: int)
    reads d, d.pc
    ensures r == 0 || r == 1
    ensures r == 1 <==> room < |d.rooms| && InRoom(d.rooms[room], d.pc.position)
  {
    if room < |d.rooms| &&
       d.pc.position.x >= d.rooms[room].position.x &&
       d.pc.position.x < d.rooms[room].position.x + d.rooms[room].size.x &&
       d.pc.position.y >= d.rooms[room].position.y &&
       d.pc.position.y < d.rooms[room].position.y + d.rooms[room].size.y
    then 1 else 0
  }

  /**
   * place_pc: a random row of room 0, from its top row to top + height - 1,
   * and a random column likewise; rand_range(lo, hi) is a choice in
   * [lo, hi].  The PC then lies in room 0 as pc_in_room sees it.
   */
  method PlacePc(d: Dungeon)
    requires d.Valid() && |d.rooms| >= 1
    modifies d.pc`position
    ensures var r := d.rooms[0];
      r.position.y <= d.pc.position.y <= r.position.y + r.size.y - 1 &&
      r.position.x <= d.pc.position.x <= r.position.x + r.size.x - 1
    ensures PcInRoom(d, 0) == 1 && InGrid(d.pc.position)
  {
    var r := d.rooms[0];
    assert RoomFits(r);
    var y :| r.position.y <= y <= r.position.y + r.size.y - 1;
    var x :| r.position.x <= x <= r.position.x + r.size.x - 1;
    d.pc.position := Pair(y, x);
  }

  /**
   * config_pc: clear the PC, make it '@', place it in room 0, give it the
   * PC speed, make it alive with sequence number 0, no NPC data, no kills,
   * and put it on the character grid at its position.
   */
  method ConfigPc(d: Dungeon)
    requires d.Valid() && |d.rooms| >= 1
    modifies d.pc, d.characterMap
    ensures d.pc.symbol == '@' && d.pc.speed == PcSpeed
    ensures PcIsAlive(d) == 1 && d.pc.sequenceNumber == 0
    ensures d.pc.hasPcData && !d.pc.hasNpcData
    ensures d.pc.killsDirect == 0 && d.pc.killsAvenged == 0
    ensures PcInRoom(d, 0) == 1 && InGrid(d.pc.position)
    ensures d.characterMap[d.pc.position.y, d.pc.position.x] == d.pc
    ensures forall y, x :: 0 <= y < DungeonY && 0 <= x < DungeonX && Pair(y, x) != d.pc.position ==>
      d.characterMap[y, x] == old(d.characterMap[y, x])
  {
    var pc := d.pc;
    pc.Zero();
    pc.symbol := '@';
    PlacePc(d);
    pc.speed, pc.alive, pc.sequenceNumber := PcSpeed, 1, 0;
    pc.hasPcData, pc.hasNpcData := true, false;
    pc.killsDirect, pc.killsAvenged := 0, 0;
    var at := pc.position;
    d.characterMap[at.y, at.x] := pc;
  }

  /** What one key read by pc_next_pos does. */
  datatype Step =
    | Move(dy: int, dx: int)   // dir is set to (dy, dx) and the loop ends
    | Ascend                   // '<' on an up staircase: a new level is made
    | Descend                  // '>' on a down staircase: a new level is made
    | Exit                     // 'q': the program ends
    | Rejected                 // the loop reads another key

  /** The (dy, dx) vector of a movement key of pc_next_pos. */
  function KeyVector(key: char): Option<Pair> {
    if key == 'y' || key == '7' then Some(Pair(-1, -1))
    else if key == 'k' || key == '8' then Some(Pair(-1, 0))
    else if key == 'u' || key == '9' then Some(Pair(-1, 1))
    else if key == 'l' || key == '6' then Some(Pair(0, 1))
    else if key == 'n' || key == '3' then Some(Pair(1, 1))
    else if key == 'j' || key == '2' then Some(Pair(1, 0))
    else if key == 'b' || key == '1' then Some(Pair(1, -1))
    else if key == 'h' || key == '4' then Some(Pair(0, -1))
    else None
  }

  /**
   * The digit keys step in the direction of their place on the keypad,
   * every other movement key is a letter that steps like some digit, and
   * every step is to one of the eight neighbours.
   */
  lemma KeyVectorsFollowKeypad(key: char)
    ensures '1' <= key <= '9' && key != '5' ==> KeyVector(key) == Some(DirectionVector(key as int - '0' as int))
    ensures KeyVector('5') == None
    ensures KeyVector(key).Some? ==>
      var v := KeyVector(key).value;
      -1 <= v.y <= 1 && -1 <= v.x <= 1 && v != Pair(0, 0) &&
      exists digit :: '1' <= digit <= '9' && digit != '5' && KeyVector(digit) == KeyVector(key)
  {
    if KeyVector(key).Some? {
      var digit :=
        if KeyVector(key) == Some(Pair(-1, -1)) then '7'
        else if KeyVector(key) == Some(Pair(-1, 0)) then '8'
        else if KeyVector(key) == Some(Pair(-1, 1)) then '9'
        else if KeyVector(key) == Some(Pair(0, 1)) then '6'
        else if KeyVector(key) == Some(Pair(1, 1)) then '3'
        else if KeyVector(key) == Some(Pair(1, 0)) then '2'
        else if KeyVector(key) == Some(Pair(1, -1)) then '1'
        else '4';
      assert KeyVector(digit) == KeyVector(key);
    }
  }

  /** The escape key, which ends the monster listing. */
  const Escape: char := 27 as char

  /** The PC stands where it can step to each neighbour without leaving the grid. */
  ghost predicate PcInside(d: Dungeon)
    reads d, d.pc
  {
    d.Valid() && Interior(d.pc.position)
  }

  /**
   * One key of pc_next_pos's loop.  A movement key is taken only when the
   * cell it leads to has hardness 0; ' ' and '5' stay in place; '<' and '>'
   * are taken only on the matching staircase; 'q' ends the program.
   */
  function KeyEffect(d: Dungeon, key: char): (s: Step)
    requires PcInside(d)
    reads d, d.pc, d.hardness, d.terrain
    ensures KeyVector(key).Some? ==>
      var v := KeyVector(key).value;
      (s == Move(v.y, v.x) <==> d.hardness[d.pc.position.y + v.y, d.pc.position.x + v.x] == 0) &&
      (s != Move(v.y, v.x) ==> s == Rejected)
    ensures s == Move(0, 0) <==> key == ' ' || key == '5'
    ensures s == Ascend <==> key == '<' && d.terrain[d.pc.position.y, d.pc.position.x] == StairsUp
    ensures s == Descend <==> key == '>' && d.terrain[d.pc.position.y, d.pc.position.x] == StairsDown
    ensures s == Exit <==> key == 'q'
    ensures s.Move? && Pair(s.dy, s.dx) != Pair(0, 0) ==> KeyVector(key) == Some(Pair(s.dy, s.dx))
  {
    var p := d.pc.position;
    match KeyVector(key)
    case Some(v) =>
      if d.hardness[p.y + v.y, p.x + v.x] == 0 then Move(v.y, v.x) else Rejected
    case None =>
      if key == ' ' || key == '5' then Move(0, 0)
      else if key == '<' && d.terrain[p.y, p.x] == StairsUp then Ascend
      else if key == '>' && d.terrain[p.y, p.x] == StairsDown then Descend
      else if key == 'q' then Exit
      else Rejected
  }

  /** The index of the first escape key at or after `from`. */
  function FirstEscape(keys: seq<char>, from: nat): (r: Option<nat>)
    decreases |keys| - from
    ensures r.Some? ==> from <= r.value < |keys| && keys[r.value] == Escape
    ensures r.Some? ==> forall i :: from <= i < r.value ==> keys[i] != Escape
    ensures r.None? ==> forall i :: from <= i < |keys| ==> keys[i] != Escape
  {
    if from >= |keys| then None
    else if keys[from] == Escape then Some(from)
    else FirstEscape(keys, from + 1)
  }

  /** Where pc_next_pos's loop stands: a step taken after `used` keys, or still reading keys. */
  datatype Decision = Decided(step: Step, used: nat) | Waiting

  /**
   * pc_next_pos reading `keys` from index `from`: a rejected key is
   * skipped; 'm' shows the monster list, which swallows keys up to and
   * including the next escape; the first key taken ends the loop.  When
   * the keys run out, the loop is still waiting for input.
   */
  function Decide(d: Dungeon, keys: seq<char>, from: nat): Decision
    requires PcInside(d)
    reads d, d.pc, d.hardness, d.terrain
    decreases |keys| - from
  {
    if from >= |keys| then Waiting
    else if keys[from] == 'm' then
      match FirstEscape(keys, from + 1)
      case None => Waiting
      case Some(e) => Decide(d, keys, e + 1)
    else
      var s := KeyEffect(d, keys[from]);
      if s == Rejected then Decide(d, keys, from + 1) else Decided(s, from + 1)
  }

  /** A decision is made by the last key read, a key the loop takes. */
  lemma {:induction false} DecidedByLastKey(d: Dungeon, keys: seq<char>, from: nat)
    requires PcInside(d)
    requires Decide(d, keys, from).Decided?
    ensures var r := Decide(d, keys, from);
      from < r.used <= |keys| && keys[r.used - 1] != 'm' &&
      r.step == KeyEffect(d, keys[r.used - 1]) && r.step != Rejected
    decreases |keys| - from
  {
    if keys[from] == 'm' {
      var e := FirstEscape(keys, from + 1).value;
      DecidedByLastKey(d, keys, e + 1);
    } else if KeyEffect(d, keys[from]) == Rejected {
      DecidedByLastKey(d, keys, from + 1);
    }
  }

  /**
   * A move pc_next_pos decides on leads to a cell of hardness 0 or stays
   * in place, and a staircase is taken only on the matching staircase.
   */
  lemma DecidedStepIsLegal(d: Dungeon, keys: seq<char>)
    requires PcInside(d) && Decide(d, keys, 0).Decided?
    ensures var s := Decide(d, keys, 0).step;
      var p := d.pc.position;
      (s.Move? ==> -1 <= s.dy <= 1 && -1 <= s.dx <= 1 &&
                   (Pair(s.dy, s.dx) == Pair(0, 0) || d.hardness[p.y + s.dy, p.x + s.dx] == 0)) &&
      (s == Ascend ==> d.terrain[p.y, p.x] == StairsUp) &&
      (s == Descend ==> d.terrain[p.y, p.x] == StairsDown)
  {
    DecidedByLastKey(d, keys, 0);
    var r := Decide(d, keys, 0);
    KeyVectorsFollowKeypad(keys[r.used - 1]);
  }

  /**
   * pc_next_pos: read keys until one is taken.  The key stream is the
   * sequence `keys`; when it runs out the result is Waiting.  Taking a
   * staircase makes a new level, which is not part of this model.
   */
  method PcNextPos(d: Dungeon, keys: seq<char>) returns (r: Decision)
    requires PcInside(d)
    ensures r == Decide(d, keys, 0)
  {
    var i := 0;
    while i < |keys|
      invariant 0 <= i <= |keys|
      invariant Decide(d, keys, 0) == Decide(d, keys, i)
    {
      var ch := keys[i];
      i := i + 1;
      if ch == 'm' {
        // The monster list: read keys until escape.
        ghost var listed := i;
        while i < |keys| && keys[i] != Escape
          invariant listed <= i <= |keys|
          invariant FirstEscape(keys, i) == FirstEscape(keys, listed)
        {
          i := i + 1;
        }
        if i == |keys| {
          return Waiting;
        }
        i := i + 1;
      } else {
        var s := KeyEffect(d, ch);
        if s != Rejected {
          return Decided(s, i);
        }
      }
    }
    return Waiting;
  }
}
