/*
 * io_nearest_visible_monster and compare_monster_distance
 * (Dungeon_Crawler/io.cpp): collect the monsters inside the border, sort
 * them by their distance to the PC, and return the first one the PC can
 * see.  can_see is code outside this model and is a parameter.
 */
module NearestMonster {
  import opened Grid
  import opened DungeonState

  /** A collected monster, the cell it stands on, and pc_distance there. */
  datatype Candidate = Candidate(who: Character, at: Pair, dist: int)

  /**
   * compare_monster_distance: negative, zero or positive as the first
   * monster is nearer to, as near as, or farther from the PC than the
   * second; the difference of the distances is assumed to fit an int.
   */
  function CompareDistance(a: Candidate, b: Candidate): (r: int)
    ensures r < 0 <==> a.dist < b.dist
    ensures r == 0 <==> a.dist == b.dist
    ensures r > 0 <==> a.dist > b.dist
  {
    a.dist - b.dist
  }

  /** Swapping the arguments negates the comparison. */
  lemma CompareDistanceAntisymmetric(a: Candidate, b: Candidate)
    ensures CompareDistance(a, b) == -CompareDistance(b, a)
  {
  }

  /** Nearest first. */
  predicate SortedByDistance(cs: seq<Candidate>) {
    forall i, j :: 0 <= i < j < |cs| ==> cs[i].dist <= cs[j].dist
  }

  /** Sorted by distance is the order in which the comparator never finds a pair inverted. */
  lemma SortedMeansComparatorAgrees(cs: seq<Candidate>)
    ensures SortedByDistance(cs) <==>
      forall i, j :: 0 <= i < j < |cs| ==> CompareDistance(cs[i], cs[j]) <= 0
  {
  }

  /** One order qsort may produce: an insertion sort, keeping ties in their order. */
  function SortByDistance(cs: seq<Candidate>): (r: seq<Candidate>)
    ensures multiset(r) == multiset(cs) && SortedByDistance(r)
  {
    if cs == [] then []
    else
      assert cs == [cs[0]] + cs[1..];
      Insert(cs[0], SortByDistance(cs[1..]))
  }

  function Insert(c: Candidate, sorted: seq<Candidate>): (r: seq<Candidate>)
    requires SortedByDistance(sorted)
    ensures multiset(r) == multiset(sorted) + multiset{c} && SortedByDistance(r)
    ensures forall k :: 0 <= k < |r| ==> r[k] == c || r[k] in sorted
  {
    if sorted == [] then [c]
    else if c.dist <= sorted[0].dist then [c] + sorted
    else
      var rest := Insert(c, sorted[1..]);
      assert sorted == [sorted[0]] + sorted[1..];
      [sorted[0]] + rest
  }

  /** The monster at an interior cell: a character other than the PC. */
  predicate MonsterAt(d: Dungeon, y: int, x: int)
    requires d.Valid()
    reads d, d.characterMap
  {
    1 <= y <= DungeonY - 2 && 1 <= x <= DungeonX - 2 &&
    d.characterMap[y, x] != null && d.characterMap[y, x] != d.pc
  }

  /** Every character on the grid stands where its position says. */
  ghost predicate PositionsMatch(d: Dungeon)
    requires d.Valid()
    reads d, d.characterMap, set y, x | 0 <= y < DungeonY && 0 <= x < DungeonX :: d.characterMap[y, x]
  {
    forall y, x :: 0 <= y < DungeonY && 0 <= x < DungeonX && d.characterMap[y, x] != null ==>
      d.characterMap[y, x].position == Pair(y, x)
  }

  /** The candidate describes the monster on its cell. */
  predicate Collected(d: Dungeon, c: Candidate)
    requires d.Valid()
    reads d, d.characterMap, d.pcDistance
  {
    MonsterAt(d, c.at.y, c.at.x) && c.who == d.characterMap[c.at.y, c.at.x] &&
    c.dist == d.pcDistance[c.at.y, c.at.x]
  }

  /**
   * The first visible candidate of a list sorted by distance is visible
   * and at least as near as every visible candidate.
   */
  lemma FirstVisibleIsNearest(cs: seq<Candidate>, pcAt: Pair, canSee: (Pair, Pair) -> bool, i: nat)
    requires SortedByDistance(cs) && i < |cs|
    requires canSee(pcAt, cs[i].at) && forall k :: 0 <= k < i ==> !canSee(pcAt, cs[k].at)
    ensures forall k :: 0 <= k < |cs| && canSee(pcAt, cs[k].at) ==> cs[i].dist <= cs[k].dist
  {
    forall k | 0 <= k < |cs| && canSee(pcAt, cs[k].at)
      ensures cs[i].dist <= cs[k].dist
    {
      assert i <= k;
      if i < k {
        assert CompareDistance(cs[i], cs[k]) <= 0;
      }
    }
  }

  /**
   * io_nearest_visible_monster.  The monsters of rows 1 to DUNGEON_Y - 2
   * and columns 1 to DUNGEON_X - 2 are listed row by row, put in an order
   * that CompareDistance sorts (qsort does not say how it orders equal
   * distances, so any such order is a choice), and the first one that
   * `canSee` accepts from the PC's cell is returned; null when there is
   * none.  It is a monster the PC sees, and none it sees is nearer.
   */
  method NearestVisibleMonster(d: Dungeon, canSee: (Pair, Pair) -> bool) returns (n: Character?)
    requires d.Valid() && PositionsMatch(d)
    ensures n == null <==>
      forall y, x :: MonsterAt(d, y, x) ==> !canSee(d.pc.position, Pair(y, x))
    ensures n != null ==> exists y, x ::
      MonsterAt(d, y, x) && d.characterMap[y, x] == n && canSee(d.pc.position, Pair(y, x)) &&
      forall y', x' :: MonsterAt(d, y', x') && canSee(d.pc.position, Pair(y', x')) ==>
        d.pcDistance[y, x] <= d.pcDistance[y', x']
  {
    var c: seq<Candidate> := [];
    for y := 1 to DungeonY - 1
      invariant forall i :: 0 <= i < |c| ==> Collected(d, c[i])
      invariant forall y', x' :: 1 <= y' < y && MonsterAt(d, y', x') ==>
        exists i :: 0 <= i < |c| && c[i].at == Pair(y', x')
    {
      for x := 1 to DungeonX - 1
        invariant forall i :: 0 <= i < |c| ==> Collected(d, c[i])
        invariant forall y', x' :: 1 <= y' < y && MonsterAt(d, y', x') ==>
          exists i :: 0 <= i < |c| && c[i].at == Pair(y', x')
        invariant forall x' :: 1 <= x' < x && MonsterAt(d, y, x') ==>
          exists i :: 0 <= i < |c| && c[i].at == Pair(y, x')
      {
        if d.characterMap[y, x] != null && d.characterMap[y, x] != d.pc {
          var who := d.characterMap[y, x];
          // The comparator reads pc_distance at the monster's own position.
          var p := who.position;
          assert p == Pair(y, x);
          ghost var before := c;
          c := c + [Candidate(who, p, d.pcDistance[p.y, p.x])];
          assert forall i :: 0 <= i < |before| ==> c[i] == before[i];
          assert c[|before|].at == Pair(y, x);
        }
      }
    }
    ghost var ordered := SortByDistance(c);
    var sorted: seq<Candidate> :| multiset(sorted) == multiset(c) && SortedByDistance(sorted);
    n := null;
    var i := 0;
    while i < |sorted|
      invariant 0 <= i <= |sorted|
      invariant forall k :: 0 <= k < i ==> !canSee(d.pc.position, sorted[k].at)
      invariant n == null
    {
      if canSee(d.pc.position, sorted[i].at) {
        n := sorted[i].who;
        break;
      }
      i := i + 1;
    }
    SelectionMeaning(d, c, sorted, canSee, n, i);
  }

  /** What the scan over the sorted candidates found, told in terms of the grid. */
  lemma SelectionMeaning(d: Dungeon, c: seq<Candidate>, sorted: seq<Candidate>,
                         canSee: (Pair, Pair) -> bool, n: Character?, i: nat)
    requires d.Valid()
    requires forall k :: 0 <= k < |c| ==> Collected(d, c[k])
    requires forall y, x :: MonsterAt(d, y, x) ==> exists k :: 0 <= k < |c| && c[k].at == Pair(y, x)
    requires multiset(sorted) == multiset(c) && SortedByDistance(sorted)
    requires i <= |sorted| && forall k :: 0 <= k < i ==> !canSee(d.pc.position, sorted[k].at)
    requires i == |sorted| ==> n == null
    requires i < |sorted| ==> n == sorted[i].who && canSee(d.pc.position, sorted[i].at)
    ensures n == null <==>
      forall y, x :: MonsterAt(d, y, x) ==> !canSee(d.pc.position, Pair(y, x))
    ensures n != null ==> exists y, x ::
      MonsterAt(d, y, x) && d.characterMap[y, x] == n && canSee(d.pc.position, Pair(y, x)) &&
      forall y', x' :: MonsterAt(d, y', x') && canSee(d.pc.position, Pair(y', x')) ==>
        d.pcDistance[y, x] <= d.pcDistance[y', x']
  {
    var pcAt := d.pc.position;
    forall k | 0 <= k < |sorted|
      ensures Collected(d, sorted[k])
    {
      assert sorted[k] in multiset(c);
    }
    forall y, x | MonsterAt(d, y, x)
      ensures exists k :: 0 <= k < |sorted| && sorted[k].at == Pair(y, x)
    {
      var j :| 0 <= j < |c| && c[j].at == Pair(y, x);
      assert c[j] in multiset(sorted);
      var k :| 0 <= k < |sorted| && sorted[k] == c[j];
    }
    if i == |sorted| {
      forall y, x | MonsterAt(d, y, x)
        ensures !canSee(pcAt, Pair(y, x))
      {
        var k :| 0 <= k < |sorted| && sorted[k].at == Pair(y, x);
      }
    } else {
      var s := sorted[i];
      assert Collected(d, s);
      FirstVisibleIsNearest(sorted, pcAt, canSee, i);
      forall y', x' | MonsterAt(d, y', x') && canSee(pcAt, Pair(y', x'))
        ensures d.pcDistance[s.at.y, s.at.x] <= d.pcDistance[y', x']
      {
        var k :| 0 <= k < |sorted| && sorted[k].at == Pair(y', x');
        assert Collected(d, sorted[k]);
      }
      assert MonsterAt(d, s.at.y, s.at.x) && d.characterMap[s.at.y, s.at.x] == n;
    }
  }
}
