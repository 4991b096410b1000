/*
 * Key codes read with getch and the movement keys shared by the teleport
 * cursor and the command loop of Dungeon_Crawler/io.cpp.  The ncurses
 * codes are the values its header gives them.
 */
module Keys {
  import opened Grid

  const KeyDown: int := 258    // KEY_DOWN, octal 0402
  const KeyUp: int := 259      // KEY_UP
  const KeyLeft: int := 260    // KEY_LEFT
  const KeyRight: int := 261   // KEY_RIGHT
  const KeyHome: int := 262    // KEY_HOME
  const KeyNPage: int := 338   // KEY_NPAGE, octal 0522
  const KeyPPage: int := 339   // KEY_PPAGE
  const KeyB2: int := 350      // KEY_B2, the keypad's centre, octal 0536
  const KeyEnd: int := 360     // KEY_END, octal 0550

  /** The code getch returns for a plain character. */
  function Code(c: char): int {
    c as int
  }

  /**
   * The movement keys of both switches, as the digit of the keypad key
   * they stand for: the digit itself, the vi-style letter, or the cursor
   * or keypad code.  Any other key gives 0.
   */
  function MoveDirection(key: int): (dir: int)
    ensures dir == 0 || (1 <= dir <= 9 && dir != 5)
  {
    if key == Code('7') || key == Code('y') || key == KeyHome then 7
    else if key == Code('8') || key == Code('k') || key == KeyUp then 8
    else if key == Code('9') || key == Code('u') || key == KeyPPage then 9
    else if key == Code('6') || key == Code('l') || key == KeyRight then 6
    else if key == Code('3') || key == Code('n') || key == KeyNPage then 3
    else if key == Code('2') || key == Code('j') || key == KeyDown then 2
    else if key == Code('1') || key == Code('b') || key == KeyEnd then 1
    else if key == Code('4') || key == Code('h') || key == KeyLeft then 4
    else 0
  }

  /** The (dy, dx) step of a keypad digit: 7 8 9 on the top row, 1 2 3 on the bottom one. */
  function DirectionVector(dir: int): (v: Pair)
    requires 1 <= dir <= 9
    ensures -1 <= v.y <= 1 && -1 <= v.x <= 1
    ensures v == Pair(0, 0) <==> dir == 5
  {
    var k := dir - 1;
    Pair(1 - k / 3, k % 3 - 1)
  }

  /** Distinct keypad digits step in distinct directions. */
  lemma DirectionsDistinct(a: int, b: int)
    requires 1 <= a <= 9 && 1 <= b <= 9 && a != b
    ensures DirectionVector(a) != DirectionVector(b)
  {
  }

  /** A digit key moves the way its own digit says. */
  lemma DigitKeysMoveByTheirDigit(c: char)
    requires '1' <= c <= '9' && c != '5'
    ensures MoveDirection(Code(c)) == c as int - '0' as int
  {
  }
}
